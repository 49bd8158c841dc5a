/** The identity calls of edge_extension/service-worker.js as they run on
    chrome.storage.local: one method per stretch between two awaits, each proved to be the
    corresponding step of the identity records. */
module IdentityWorker {
  import opened Basics
  import opened IdentityRevocation

  /** The notices a flush takes at most: the first 16 of the listing. */
  function Batch(tabs: seq<nat>): (r: seq<nat>)
    ensures r == if |tabs| <= 16 then tabs else tabs[..16]
  {
    FirstBatch(tabs)
  }

  /** A notice of the batch is delivered if it is of this build and the relay accepts it. */
  predicate Takes(pending: map<nat, Notice>, batch: seq<nat>, source: string, accepted: nat -> bool, i: nat)
    requires i < |batch|
  {
    batch[i] in pending && pending[batch[i]].source == source && accepted(i)
  }

  /** The tabs of those of the first k notices that are delivered. */
  function Taken(pending: map<nat, Notice>, batch: seq<nat>, source: string, accepted: nat -> bool, k: nat): set<nat>
    requires k <= |batch|
  {
    set i | 0 <= i < k && Takes(pending, batch, source, accepted, i) :: batch[i]
  }

  /** The acknowledgements of those of the first k notices that are delivered, in order. */
  function Acks(pending: map<nat, Notice>, batch: seq<nat>, source: string, accepted: nat -> bool, k: nat): seq<Effect>
    requires k <= |batch|
  {
    if k == 0 then []
    else Acks(pending, batch, source, accepted, k - 1)
         + if Takes(pending, batch, source, accepted, k - 1) then [Acked(pending[batch[k - 1]].epoch)] else []
  }

  /** The relay has acknowledged those of the first k notices that are delivered. */
  predicate AckedUpTo(pending: map<nat, Notice>, batch: seq<nat>, source: string, accepted: nat -> bool, k: nat, log: seq<Effect>) {
    forall i :: 0 <= i < k && i < |batch| && Takes(pending, batch, source, accepted, i) ==> Acked(pending[batch[i]].epoch) in log
  }

  lemma OneMoreAcked(pending: map<nat, Notice>, batch: seq<nat>, source: string, accepted: nat -> bool, k: nat,
                     log: seq<Effect>, more: seq<Effect>)
    requires AckedUpTo(pending, batch, source, accepted, k, log) && log <= more && k < |batch|
    requires Takes(pending, batch, source, accepted, k) ==> Acked(pending[batch[k]].epoch) in more
    ensures AckedUpTo(pending, batch, source, accepted, k + 1, more)
  {
  }

  lemma OneMoreGone(pending: map<nat, Notice>, batch: seq<nat>, source: string, accepted: nat -> bool, k: nat)
    requires k < |batch| && batch[k] in pending && forall i :: 0 <= i < k ==> batch[i] != batch[k]
    ensures var left := pending - Taken(pending, batch, source, accepted, k);
      && batch[k] in left && left[batch[k]] == pending[batch[k]]
      && pending - Taken(pending, batch, source, accepted, k + 1)
         == if Takes(pending, batch, source, accepted, k) then left - {batch[k]} else left
  {
    var now, next := Taken(pending, batch, source, accepted, k), Taken(pending, batch, source, accepted, k + 1);
    assert next == if Takes(pending, batch, source, accepted, k) then now + {batch[k]} else now;
  }

  lemma NoticesAre(docs: map<nat, Doc>, revokes: map<nat, Notice>, tabs: set<nat>, source: string, update: map<nat, Notice>)
    requires forall t :: t in update <==> t in tabs && t in docs && t !in revokes
    requires forall t :: t in update ==> update[t] == Notice(docs[t].documentId, docs[t].epoch, source)
    ensures update == NoticesFor(docs, revokes, tabs, source)
  {
  }

  /** 8 to 160 letters, digits, underscores and hyphens. */
  predicate Names(id: string) {
    8 <= |id| <= 160
    && forall i :: 0 <= i < |id| ==>
         'A' <= id[i] <= 'Z' || 'a' <= id[i] <= 'z' || '0' <= id[i] <= '9' || id[i] == '_' || id[i] == '-'
  }

  /** Storage holds this document for the tab, no notice for it, and no poison. */
  predicate Current(s: State, tab: nat, doc: Doc) {
    !s.poison && tab !in s.revokes && tab in s.docs && s.docs[tab].epoch == doc.epoch
  }

  lemma DeniesExactly(s: State, t: State, denied: set<nat>, f: Flight, pid: nat)
    requires f.Denying? && f.removals == denied * s.docs.Keys && pid !in s.flights
    requires forall x :: x in f.notices <==> x in f.removals && x !in s.revokes
    requires forall x :: x in f.notices ==> f.notices[x] == Notice(s.docs[x].documentId, s.docs[x].epoch, s.source)
    requires t.docs == s.docs - f.removals && t.revokes == s.revokes + f.notices && t.poison == (s.poison || f.poison)
    requires t == s.(docs := t.docs, revokes := t.revokes, poison := t.poison, flights := t.flights) && t.flights == s.flights
    ensures Invalidated(s, t, denied, f.poison)
  {
  }

  /** The page's identifiers are well formed, and storage denies nothing: there is no poison, no
      overflow and no notice for the tab. */
  predicate OpenTo(s: State, tab: nat, documentId: string, route: string) {
    Names(documentId) && Names(route) && !s.poison && |s.revokes| <= 128 && tab !in s.revokes
  }

  /** The outcome of a preparation that was left alone. */
  ghost predicate PreparedAlone(s: State, t: State, pid: nat, tab: nat, documentId: string, route: string, epoch: string, r: Option<Doc>) {
    if !OpenTo(s, tab, documentId, route) then r.None? && t == s
    else if tab !in s.docs then
      var doc := Doc(documentId, epoch, route, s.source, false);
      r == Some(doc) && t == s.(docs := s.docs[tab := doc], minted := s.minted + {epoch}, log := s.log + [Prepared(tab, doc)],
                                flights := s.flights[pid := Tracking(tab, doc)])
    else if s.docs[tab].documentId == documentId && s.docs[tab].route == route then
      r == Some(s.docs[tab]) && t == s.(log := s.log + [Prepared(tab, s.docs[tab])],
                                        flights := s.flights[pid := Tracking(tab, s.docs[tab])])
    else r.None? && Invalidated(s, t, {tab}, false)
  }

  /** The rest of it, from the flight that holds the known or the new document. */
  predicate LastAlone(s: State, t: State, pid: nat, epoch: string, r: Option<Doc>)
    requires pid in s.flights && (s.flights[pid].Known? || s.flights[pid].Fresh?)
  {
    var f := s.flights[pid];
    var doc := if f.Known? then f.doc else Doc(f.documentId, epoch, f.route, s.source, false);
    && r == Some(doc)
    && t == s.(docs := if f.Known? then s.docs else s.docs[f.tab := doc], minted := if f.Known? then s.minted else s.minted + {epoch},
               log := s.log + [Prepared(f.tab, doc)], flights := s.flights[pid := Tracking(f.tab, doc)])
  }

  lemma NavigatedAlone(s: State, t: State, pid: nat, tab: nat, documentId: string, route: string, epoch: string)
    requires OpenTo(s, tab, documentId, route) && tab in s.docs && Invalidated(s, t, {tab}, false)
    requires s.docs[tab].documentId != documentId || s.docs[tab].route != route
    ensures PreparedAlone(s, t, pid, tab, documentId, route, epoch, None)
  {
    hide OpenTo, Invalidated;
  }

  lemma ClosedAlone(s: State, pid: nat, tab: nat, documentId: string, route: string, epoch: string)
    requires !OpenTo(s, tab, documentId, route)
    ensures PreparedAlone(s, s, pid, tab, documentId, route, epoch, None)
  {
    hide OpenTo, Invalidated;
  }

  lemma OpenAlone(s: State, u: State, t: State, pid: nat, tab: nat, documentId: string, route: string, epoch: string, r: Option<Doc>)
    requires OpenTo(s, tab, documentId, route) && pid in u.flights
    requires var same := tab in s.docs && s.docs[tab].documentId == documentId && s.docs[tab].route == route;
      && (same || tab !in s.docs)
      && u == s.(flights := s.flights[pid := if same then Known(tab, s.docs[tab]) else Fresh(tab, documentId, route)])
    requires LastAlone(u, t, pid, epoch, r)
    ensures PreparedAlone(s, t, pid, tab, documentId, route, epoch, r)
  {
    hide OpenTo, Invalidated;
  }

  /** A call hands out the document it holds and goes on with it, or ends. */
  predicate HandedOut(s: State, t: State, pid: nat, handed: bool)
    requires pid in s.flights && (s.flights[pid].Known? || s.flights[pid].Written?)
  {
    var f := s.flights[pid];
    t == if handed then s.(log := s.log + [Prepared(f.tab, f.doc)], flights := s.flights[pid := Tracking(f.tab, f.doc)])
         else s.(flights := s.flights - {pid})
  }

  /** Every notice of the batch that is of this build and accepted has been acknowledged, and the
      flush answers whether these are all. */
  predicate Delivered(s: State, batch: seq<nat>, accepted: nat -> bool, all: bool, log: seq<Effect>) {
    && (forall i :: 0 <= i < |batch| ==> batch[i] in s.revokes)
    && (all <==> forall i :: 0 <= i < |batch| ==> s.revokes[batch[i]].source == s.source && accepted(i))
    && (forall i :: 0 <= i < |batch| && s.revokes[batch[i]].source == s.source && accepted(i) ==> Acked(s.revokes[batch[i]].epoch) in log)
  }

  /** Exactly these notices have left storage, exactly they are acknowledged, in the order of the
      batch, and nothing else has changed. */
  predicate FlushedAlone(s: State, t: State, batch: seq<nat>, accepted: nat -> bool) {
    && (forall i :: 0 <= i < |batch| ==> batch[i] in s.revokes)
    && t == s.(revokes := t.revokes, log := t.log)
    && t.revokes == s.revokes - (set i | 0 <= i < |batch| && s.revokes[batch[i]].source == s.source && accepted(i) :: batch[i])
    && t.log == s.log + Acks(s.revokes, batch, s.source, accepted, |batch|)
  }

  /** Exactly the denied documents are gone, and exactly those of them without a notice have
      got one, of this build; nothing else has changed. */
  ghost predicate Invalidated(s: State, t: State, denied: set<nat>, poisoned: bool) {
    && t == s.(docs := t.docs, revokes := t.revokes, poison := s.poison || poisoned)
    && (forall x :: x in t.docs <==> x in s.docs && x !in denied) && (forall x :: x in t.docs ==> t.docs[x] == s.docs[x])
    && (forall x :: x in t.revokes <==> x in s.revokes || (x in denied && x in s.docs))
    && forall x :: x in t.revokes ==>
         t.revokes[x] == if x in s.revokes then s.revokes[x] else Notice(s.docs[x].documentId, s.docs[x].epoch, s.source)
  }

  class IdentityWorker {
    var docs: map<nat, Doc>         // sentra_id_doc_<tab>
    var revokes: map<nat, Notice>   // sentra_id_revoke_<tab>
    var poison: bool                // sentra_id_profile_poison
    var source: string              // OMA_SOURCE_HASH of the running build
    var flights: map<nat, Flight>
    var minted: set<string>         // epochs randomUUID has given out
    ghost var log: seq<Effect>

    ghost function Records(): State
      reads this
    {
      State(docs, revokes, poison, source, minted, flights, log)
    }

    constructor (build: string)
      ensures Records() == State(map[], map[], false, build, {}, map[], [])
    {
      docs, revokes, poison, source, flights, minted, log := map[], map[], false, build, map[], {}, [];
    }

    /** tabs are the pending notices in the order of their sorted storage keys. */
    method FlushRead(pid: nat, tabs: seq<nat>) returns (overflow: bool)
      requires pid !in flights && !FlushBusy(Records()) && Listing(revokes, tabs)
      modifies this
      ensures Records() == Step(old(Records()), Event.FlushRead(pid, tabs))
      ensures overflow <==> |old(revokes)| > 128
      ensures overflow ==> Records() == old(Records())
      ensures !overflow ==>
                && pid in flights && flights[pid].Flushing?
                && var batch, todo := if |tabs| <= 16 then tabs else tabs[..16], flights[pid].todo;
                && Records() == old(Records()).(flights := old(flights)[pid := Flushing(todo)])
                && |todo| == |batch| && forall i :: 0 <= i < |batch| ==> batch[i] in revokes && todo[i] == (batch[i], revokes[batch[i]])
    {
      overflow := |revokes| > MAX_PENDING;
      if overflow {
        return;
      }
      var order := FirstBatch(tabs);
      var todo, k := [], |order|;
      while k > 0
        invariant 0 <= k <= |order|
        invariant todo == Snapshot(revokes, order[k..])
        invariant Records() == old(Records())
      {
        k := k - 1;
        assert order[k..][1..] == order[k + 1..];
        if order[k] in revokes {
          todo := [(order[k], revokes[order[k]])] + todo;
        }
      }
      assert order[0..] == order;
      SnapshotIs(revokes, order);
      flights := flights[pid := Flushing(todo)];
    }

    /** delivered: the relay has acknowledged the notice. */
    method FlushPost(pid: nat, accepted: bool) returns (delivered: bool)
      requires pid in flights && flights[pid].Flushing?
      modifies this
      ensures Records() == Step(old(Records()), Event.FlushPost(pid, accepted))
      ensures var todo := old(flights)[pid].todo;
        && (delivered <==> todo != [] && todo[0].1.source == source && accepted)
        && Records() == if todo == [] then old(Records()).(flights := old(flights) - {pid})
                        else if delivered
                        then old(Records()).(log := old(log) + [Acked(todo[0].1.epoch)],
                                             flights := old(flights)[pid := Acknowledged(todo[0].0, todo[0].1, todo[1..])])
                        else old(Records()).(flights := old(flights)[pid := Flushing(todo[1..])])
    {
      var todo := flights[pid].todo;
      if todo == [] {
        flights := flights - {pid};
        return false;
      }
      var (tab, notice) := todo[0];
      delivered := notice.source == source && accepted;
      if delivered {
        log := log + [Acked(notice.epoch)];
        flights := flights[pid := Acknowledged(tab, notice, todo[1..])];
      } else {
        flights := flights[pid := Flushing(todo[1..])];
      }
    }

    method FlushCompare(pid: nat) returns (same: bool)
      requires pid in flights && flights[pid].Acknowledged?
      modifies this
      ensures Records() == Step(old(Records()), Event.FlushCompare(pid))
      ensures var f := old(flights)[pid];
        && (same <==> f.tab in revokes && revokes[f.tab].epoch == f.notice.epoch)
        && Records() == old(Records()).(flights := old(flights)[pid := if same then Erasing(f.tab, f.notice, f.rest) else Flushing(f.rest)])
    {
      var f := flights[pid];
      same := f.tab in revokes && revokes[f.tab].epoch == f.notice.epoch;
      if same {
        flights := flights[pid := Erasing(f.tab, f.notice, f.rest)];
      } else {
        flights := flights[pid := Flushing(f.rest)];
      }
    }

    method FlushErase(pid: nat)
      requires pid in flights && flights[pid].Erasing?
      modifies this
      ensures Records() == Step(old(Records()), Event.FlushErase(pid))
      ensures var f := old(flights)[pid];
        Records() == old(Records()).(revokes := old(revokes) - {f.tab}, flights := old(flights)[pid := Flushing(f.rest)])
    {
      var f := flights[pid];
      revokes := revokes - {f.tab};
      flights := flights[pid := Flushing(f.rest)];
    }

    /** Collects, tab by tab, what an invalidation will write and remove. */
    method Collect(tabs: set<nat>) returns (update: map<nat, Notice>, remove: set<nat>)
      ensures update == NoticesFor(docs, revokes, tabs, source)
      ensures forall t :: t in update <==> t in tabs && t in docs && t !in revokes
      ensures forall t :: t in update ==> update[t] == Notice(docs[t].documentId, docs[t].epoch, source)
      ensures remove == tabs * docs.Keys
    {
      hide NoticesFor;
      var left := tabs;
      update, remove := map[], {};
      while left != {}
        invariant left <= tabs
        invariant forall t :: t in update <==> t in tabs && t !in left && t in docs && t !in revokes
        invariant forall t :: t in update ==> update[t] == Notice(docs[t].documentId, docs[t].epoch, source)
        invariant forall t :: t in remove <==> t in tabs && t !in left && t in docs
        decreases |left|
      {
        var id :| id in left;
        left := left - {id};
        if id in docs {
          if id !in revokes {
            update := update[id := NoticeFor(docs[id], source)];
          }
          remove := remove + {id};
        }
      }
      NoticesAre(docs, revokes, tabs, source, update);
    }

    method InvalidateRead(pid: nat, tab: nat, global: bool)
      requires pid !in flights
      modifies this
      ensures Records() == Step(old(Records()), Event.InvalidateRead(pid, tab, global))
      ensures pid in flights && flights[pid].Denying?
      ensures var f := flights[pid];
        && Records() == old(Records()).(flights := old(flights)[pid := Denying(global, f.notices, f.removals)])
        && f.removals == (if global then docs.Keys else {tab}) * docs.Keys
        && (forall t :: t in f.notices <==> t in f.removals && t !in revokes)
        && forall t :: t in f.notices ==> f.notices[t] == Notice(docs[t].documentId, docs[t].epoch, source)
    {
      var tabs := if global then docs.Keys else {tab};
      var update, remove := Collect(tabs);
      ghost var removals := if global then docs.Keys else if tab in docs then {tab} else {};
      assert remove == removals;
      assert update == NoticesFor(docs, revokes, removals, source);
      flights := flights[pid := Denying(global, update, remove)];
    }

    method InvalidateWrite(pid: nat)
      requires pid in flights && flights[pid].Denying?
      modifies this
      ensures Records() == Step(old(Records()), Event.InvalidateWrite(pid))
      ensures var f := old(flights)[pid];
        Records() == old(Records()).(poison := old(poison) || f.poison, revokes := old(revokes) + f.notices,
                                     flights := old(flights)[pid := Removing(f.removals)])
    {
      var f := flights[pid];
      poison := poison || f.poison;
      revokes := revokes + f.notices;
      flights := flights[pid := Removing(f.removals)];
    }

    method InvalidateRemove(pid: nat)
      requires pid in flights && flights[pid].Removing?
      modifies this
      ensures Records() == Step(old(Records()), Event.InvalidateRemove(pid))
      ensures Records() == old(Records()).(docs := old(docs) - old(flights)[pid].removals, flights := old(flights) - {pid})
    {
      docs := docs - flights[pid].removals;
      flights := flights - {pid};
    }

    method PrepareRead(pid: nat, tab: nat, documentId: string, route: string) returns (ok: bool)
      requires pid !in flights
      modifies this
      ensures Records() == Step(old(Records()), Event.PrepareRead(pid, tab, documentId, route))
      ensures ok <==> Names(documentId) && Names(route) && !poison && |revokes| <= 128
      ensures Records() == if ok then old(Records()).(flights := old(flights)[pid := Preparing(tab, documentId, route)]) else old(Records())
    {
      ok := Identifier(documentId) && Identifier(route) && !poison && |revokes| <= MAX_PENDING;
      if ok {
        flights := flights[pid := Preparing(tab, documentId, route)];
      }
    }

    /** navigated: the tracked document is another one, which the caller invalidates. */
    method PrepareLook(pid: nat) returns (navigated: bool)
      requires pid in flights && flights[pid].Preparing?
      modifies this
      ensures Records() == Step(old(Records()), Event.PrepareLook(pid))
      ensures var f := old(flights)[pid];
        var same := f.tab in docs && docs[f.tab].documentId == f.documentId && docs[f.tab].route == f.route;
        && (navigated <==> f.tab !in revokes && f.tab in docs && !same)
        && Records() == old(Records()).(
             flights := if f.tab in revokes || navigated then old(flights) - {pid}
                        else old(flights)[pid := if same then Known(f.tab, docs[f.tab]) else Fresh(f.tab, f.documentId, f.route)])
    {
      var f := flights[pid];
      navigated := false;
      if f.tab in revokes {
        flights := flights - {pid};
      } else if f.tab !in docs {
        flights := flights[pid := Fresh(f.tab, f.documentId, f.route)];
      } else if docs[f.tab].documentId != f.documentId || docs[f.tab].route != f.route {
        navigated := true;
        flights := flights - {pid};
      } else {
        flights := flights[pid := Known(f.tab, docs[f.tab])];
      }
    }

    method PrepareKnown(pid: nat) returns (r: Option<Doc>)
      requires pid in flights && flights[pid].Known?
      modifies this
      ensures Records() == Step(old(Records()), Event.PrepareKnown(pid))
      ensures r == if poison then None else Some(old(flights)[pid].doc)
      ensures HandedOut(old(Records()), Records(), pid, r.Some?)
    {
      var f := flights[pid];
      if poison {
        flights := flights - {pid};
        return None;
      }
      log := log + [Prepared(f.tab, f.doc)];
      flights := flights[pid := Tracking(f.tab, f.doc)];
      return Some(f.doc);
    }

    method PrepareWrite(pid: nat, epoch: string)
      requires pid in flights && flights[pid].Fresh? && epoch !in minted
      modifies this
      ensures Records() == Step(old(Records()), Event.PrepareWrite(pid, epoch))
      ensures var f := old(flights)[pid];
        var doc := Doc(f.documentId, epoch, f.route, source, false);
        Records() == old(Records()).(docs := old(docs)[f.tab := doc], minted := old(minted) + {epoch},
                                     flights := old(flights)[pid := Written(f.tab, doc)])
    {
      var f := flights[pid];
      var doc := Doc(f.documentId, epoch, f.route, source, false);
      docs := docs[f.tab := doc];
      minted := minted + {epoch};
      flights := flights[pid := Written(f.tab, doc)];
    }

    method PrepareCheck(pid: nat) returns (r: Option<Doc>)
      requires pid in flights && flights[pid].Written?
      modifies this
      ensures Records() == Step(old(Records()), Event.PrepareCheck(pid))
      ensures var f := old(flights)[pid];
        r == if !poison && f.tab in docs && docs[f.tab].epoch == f.doc.epoch then Some(f.doc) else None
      ensures HandedOut(old(Records()), Records(), pid, r.Some?)
    {
      var f := flights[pid];
      if poison || f.tab !in docs || docs[f.tab].epoch != f.doc.epoch {
        flights := flights - {pid};
        return None;
      }
      log := log + [Prepared(f.tab, f.doc)];
      flights := flights[pid := Tracking(f.tab, f.doc)];
      return Some(f.doc);
    }

    /** The checks that precede a publication, a mark and a proof. */
    predicate StillClear(tab: nat, doc: Doc)
      reads this
      ensures StillClear(tab, doc) <==> Clear(Records(), tab, doc)
      ensures StillClear(tab, doc) <==> Current(Records(), tab, doc)
    {
      !poison && tab !in revokes && tab in docs && docs[tab].epoch == doc.epoch
    }

    method PublishRead(pid: nat) returns (ok: bool)
      requires pid in flights && flights[pid].Tracking?
      modifies this
      ensures Records() == Step(old(Records()), Event.PublishRead(pid))
      ensures var f := old(flights)[pid];
        && (ok <==> Current(old(Records()), f.tab, f.doc) && docs[f.tab].documentId == f.doc.documentId && docs[f.tab].source == source)
        && Records() == old(Records()).(flights := if ok then old(flights)[pid := Publishing(f.tab, f.doc)] else old(flights) - {pid})
    {
      var f := flights[pid];
      ok := StillClear(f.tab, f.doc) && docs[f.tab].documentId == f.doc.documentId && docs[f.tab].source == source;
      flights := if ok then flights[pid := Publishing(f.tab, f.doc)] else flights - {pid};
    }

    method PublishPost(pid: nat, accepted: bool)
      requires pid in flights && flights[pid].Publishing?
      modifies this
      ensures Records() == Step(old(Records()), Event.PublishPost(pid, accepted))
      ensures var f := old(flights)[pid];
        Records() == old(Records()).(log := old(log) + [Observed(f.tab, f.doc)],
                                     flights := if accepted then old(flights)[pid := Replied(f.tab, f.doc)] else old(flights) - {pid})
    {
      var f := flights[pid];
      log := log + [Observed(f.tab, f.doc)];
      flights := if accepted then flights[pid := Replied(f.tab, f.doc)] else flights - {pid};
    }

    method MarkRead(pid: nat) returns (ok: bool)
      requires pid in flights && flights[pid].Replied?
      modifies this
      ensures Records() == Step(old(Records()), Event.MarkRead(pid))
      ensures var f := old(flights)[pid];
        && (ok <==> Current(old(Records()), f.tab, f.doc))
        && Records() == old(Records()).(flights := if ok then old(flights)[pid := Marking(f.tab, f.doc)] else old(flights) - {pid})
    {
      var f := flights[pid];
      ok := StillClear(f.tab, f.doc);
      flights := if ok then flights[pid := Marking(f.tab, f.doc)] else flights - {pid};
    }

    method MarkWrite(pid: nat)
      requires pid in flights && flights[pid].Marking?
      modifies this
      ensures Records() == Step(old(Records()), Event.MarkWrite(pid))
      ensures var f := old(flights)[pid];
        Records() == old(Records()).(docs := old(docs)[f.tab := f.doc.(observed := true)],
                                     flights := old(flights)[pid := Proving(f.tab, f.doc)])
    {
      var f := flights[pid];
      docs := docs[f.tab := f.doc.(observed := true)];
      flights := flights[pid := Proving(f.tab, f.doc)];
    }

    method ProofRead(pid: nat, witnessed: bool) returns (r: Option<Doc>)
      requires pid in flights && flights[pid].Proving?
      modifies this
      ensures Records() == Step(old(Records()), Event.ProofRead(pid, witnessed))
      ensures var f := old(flights)[pid];
        && r == (if witnessed && Current(old(Records()), f.tab, f.doc) then Some(f.doc) else None)
        && Records() == old(Records()).(log := old(log) + if r.Some? then [Proof(f.tab, f.doc)] else [], flights := old(flights) - {pid})
    {
      var f := flights[pid];
      r := None;
      if witnessed && StillClear(f.tab, f.doc) {
        log := log + [Proof(f.tab, f.doc)];
        r := Some(f.doc);
      }
      flights := flights - {pid};
    }

    /** A rejected await. */
    method Die(pid: nat)
      modifies this`flights
      ensures Records() == Step(old(Records()), Event.Die(pid))
    {
      flights := flights - {pid};
    }

    /** A new worker, perhaps of a new build, finds storage as it is. */
    method Restart(build: string)
      modifies this`source, this`flights
      ensures Records() == Step(old(Records()), Event.Restart(build))
    {
      source, flights := build, map[];
    }

    // What other calls do at an await

    method PlayFlush(e: Event)
      requires e.FlushRead? || e.FlushPost? || e.FlushCompare? || e.FlushErase?
      modifies this
      ensures Records() == Step(old(Records()), e)
    {
      var reply: bool;
      if e.FlushRead? {
        if e.pid !in flights && Listing(revokes, e.tabs) && !(exists q :: q in flights && InFlush(flights[q])) {
          reply := FlushRead(e.pid, e.tabs);
        }
      } else if e.pid in flights {
        if e.FlushPost? && flights[e.pid].Flushing? {
          reply := FlushPost(e.pid, e.accepted);
        } else if e.FlushCompare? && flights[e.pid].Acknowledged? {
          reply := FlushCompare(e.pid);
        } else if e.FlushErase? && flights[e.pid].Erasing? {
          FlushErase(e.pid);
        }
      }
    }

    method PlayInvalidate(e: Event)
      requires e.InvalidateRead? || e.InvalidateWrite? || e.InvalidateRemove? || e.Die? || e.Restart?
      modifies this
      ensures Records() == Step(old(Records()), e)
    {
      if e.Die? {
        Die(e.pid);
      } else if e.Restart? {
        Restart(e.source);
      } else if e.InvalidateRead? {
        if e.pid !in flights {
          InvalidateRead(e.pid, e.tab, e.global);
        }
      } else if e.pid in flights {
        if e.InvalidateWrite? && flights[e.pid].Denying? {
          InvalidateWrite(e.pid);
        } else if e.InvalidateRemove? && flights[e.pid].Removing? {
          InvalidateRemove(e.pid);
        }
      }
    }

    method PlayPrepare(e: Event)
      requires e.PrepareRead? || e.PrepareLook? || e.PrepareKnown? || e.PrepareWrite? || e.PrepareCheck?
      modifies this
      ensures Records() == Step(old(Records()), e)
    {
      var reply: bool;
      var doc: Option<Doc>;
      if e.PrepareRead? {
        if e.pid !in flights {
          reply := PrepareRead(e.pid, e.tab, e.documentId, e.route);
        }
      } else if e.pid in flights {
        if e.PrepareLook? && flights[e.pid].Preparing? {
          reply := PrepareLook(e.pid);
        } else if e.PrepareKnown? && flights[e.pid].Known? {
          doc := PrepareKnown(e.pid);
        } else if e.PrepareWrite? && flights[e.pid].Fresh? && e.epoch !in minted {
          PrepareWrite(e.pid, e.epoch);
        } else if e.PrepareCheck? && flights[e.pid].Written? {
          doc := PrepareCheck(e.pid);
        }
      }
    }

    method PlayObserve(e: Event)
      requires e.PublishRead? || e.PublishPost? || e.MarkRead? || e.MarkWrite? || e.ProofRead?
      modifies this
      ensures Records() == Step(old(Records()), e)
    {
      var reply: bool;
      var doc: Option<Doc>;
      if e.pid in flights {
        if e.PublishRead? && flights[e.pid].Tracking? {
          reply := PublishRead(e.pid);
        } else if e.PublishPost? && flights[e.pid].Publishing? {
          PublishPost(e.pid, e.accepted);
        } else if e.MarkRead? && flights[e.pid].Replied? {
          reply := MarkRead(e.pid);
        } else if e.MarkWrite? && flights[e.pid].Marking? {
          MarkWrite(e.pid);
        } else if e.ProofRead? && flights[e.pid].Proving? {
          doc := ProofRead(e.pid, e.witnessed);
        }
      }
    }

    method Meanwhile(events: seq<Event>)
      modifies this
      ensures Records() == Run(old(Records()), events)
    {
      assert events[..0] == [];
      for i := 0 to |events|
        invariant Records() == Run(old(Records()), events[..i])
      {
        var e := events[i];
        if e.FlushRead? || e.FlushPost? || e.FlushCompare? || e.FlushErase? {
          PlayFlush(e);
        } else if e.PrepareRead? || e.PrepareLook? || e.PrepareKnown? || e.PrepareWrite? || e.PrepareCheck? {
          PlayPrepare(e);
        } else if e.PublishRead? || e.PublishPost? || e.MarkRead? || e.MarkWrite? || e.ProofRead? {
          PlayObserve(e);
        } else {
          PlayInvalidate(e);
        }
        assert events[..i + 1] == events[..i] + [e];
        RunAppend(old(Records()), events[..i], [e]);
        RunOne(Run(old(Records()), events[..i]), e);
      }
      assert events[..|events|] == events;
    }

    // Whole calls

    /** One step of a call, added to the run that led to it. */
    lemma Stepped(start: State, before: seq<Event>, s: State, e: Event) returns (run: seq<Event>)
      requires s == Run(start, before) && Records() == Step(s, e)
      ensures run == before + [e] && Records() == Run(start, run)
    {
      hide Step, Run;
      run := before + [e];
      RunAppend(start, before, [e]);
      RunOne(s, e);
    }

    /** Other calls, while this one waits. */
    method Await(pid: nat, events: seq<Event>, ghost start: State, ghost before: seq<Event>) returns (ghost run: seq<Event>)
      requires Records() == Run(start, before) && OfOthers(events, pid)
      modifies this
      ensures run == before + events && Records() == Run(start, run) && SameFlight(old(Records()), Records(), pid)
      ensures old(log) <= log && (old(poison) ==> poison)
      ensures source == old(source) && (events == [] ==> Records() == old(Records()))
    {
      hide Step, OfOthers;
      if poison {
        PoisonStaysOn(Records(), events);
      }
      run := before + events;
      RunAppend(start, before, events);
      OthersLeaveFlights(Records(), events, pid);
      LogOnlyGrows(Records(), events);
      BuildStays(Records(), events, pid);
      NothingRuns(Records());
      Meanwhile(events);
    }

    /** The rest of a notice's turn, once the relay has acknowledged it. */
    method Settle(pid: nat, first: seq<Event>, second: seq<Event>, ghost start: State, ghost before: seq<Event>)
      returns (ghost run: seq<Event>)
      requires Records() == Run(start, before) && pid in flights && flights[pid].Acknowledged?
      requires OfOthers(first, pid) && OfOthers(second, pid)
      modifies this
      ensures Records() == Run(start, run) && pid in flights && flights[pid] == Flushing(old(flights)[pid].rest)
      ensures old(log) <= log && source == old(source)
      ensures first == second == [] ==>
                var f := old(flights)[pid];
                Records() == old(Records()).(
                  revokes := if f.tab in old(revokes) && old(revokes)[f.tab].epoch == f.notice.epoch
                             then old(revokes) - {f.tab} else old(revokes),
                  flights := old(flights)[pid := Flushing(f.rest)])
    {
      hide Run, OfOthers;
      run := Await(pid, first, start, before);
      ghost var s := Records();
      var same := FlushCompare(pid);
      run := Stepped(start, run, s, Event.FlushCompare(pid));
      if same {
        run := Await(pid, second, start, run);
        s := Records();
        FlushErase(pid);
        run := Stepped(start, run, s, Event.FlushErase(pid));
      }
    }

    /** The turn of one notice in a flush. */
    method Deliver(pid: nat, accepted: bool, first: seq<Event>, second: seq<Event>, third: seq<Event>,
                   ghost start: State, ghost before: seq<Event>)
      returns (delivered: bool, ghost run: seq<Event>)
      requires Records() == Run(start, before) && pid in flights && flights[pid].Flushing? && flights[pid].todo != []
      requires OfOthers(first, pid) && OfOthers(second, pid) && OfOthers(third, pid)
      modifies this
      ensures Records() == Run(start, run) && pid in flights && flights[pid] == Flushing(old(flights)[pid].todo[1..])
      ensures old(log) <= log && (delivered ==> Acked(old(flights)[pid].todo[0].1.epoch) in log)
      ensures source == old(source) && (delivered <==> old(flights)[pid].todo[0].1.source == source && accepted)
      ensures first == second == third == [] ==>
                var (tab, notice) := old(flights)[pid].todo[0];
                Records() == old(Records()).(
                  revokes := if delivered && tab in old(revokes) && old(revokes)[tab].epoch == notice.epoch
                             then old(revokes) - {tab} else old(revokes),
                  log := if delivered then old(log) + [Acked(notice.epoch)] else old(log),
                  flights := old(flights)[pid := Flushing(old(flights)[pid].todo[1..])])
    {
      hide Run, OfOthers;
      ghost var acked := Acked(flights[pid].todo[0].1.epoch);
      run := Await(pid, first, start, before);
      ghost var s := Records();
      delivered := FlushPost(pid, accepted);
      run := Stepped(start, run, s, Event.FlushPost(pid, accepted));
      if delivered {
        ghost var at := |log| - 1;
        assert log[at] == acked;
        run := Settle(pid, second, third, start, run);
        assert log[at] == acked;
      }
    }

    /** omaIdFlushInvalidations from beginning to end, with what other calls do at its awaits.
        It answers that all was delivered exactly when no more than 128 notices were pending and
        each of the batch was of this build and accepted, and whatever was is acknowledged. If
        nobody else was at work, exactly the notices of this build whose reply was accepted have
        left storage, exactly they are acknowledged, and nothing else has changed. */
    method Flush(pid: nat, tabs: seq<nat>, accepted: nat -> bool, others: nat -> seq<Event>)
      returns (allDelivered: bool, ghost run: seq<Event>)
      requires pid !in flights && !FlushBusy(Records()) && Listing(revokes, tabs)
      requires forall n :: OfOthers(others(n), pid)
      modifies this
      ensures Records() == Run(old(Records()), run) && pid !in flights
      ensures |old(revokes)| > 128 ==> Records() == old(Records()) && !allDelivered
      ensures |old(revokes)| <= 128 ==>
                var batch := if |tabs| <= 16 then tabs else tabs[..16];
                && Delivered(old(Records()), batch, accepted, allDelivered, log)
                && ((forall n :: others(n) == []) ==> FlushedAlone(old(Records()), Records(), batch, accepted))
    {
      ListedOnce(revokes, tabs);
      hide Step, Run, FlushBusy, Listing, OfOthers, AckedUpTo, Acks, Taken, Takes, Delivered, FlushedAlone;
      ghost var start := Records();
      var overflow := FlushRead(pid, tabs);
      NothingRuns(start);
      run := Stepped(start, [], start, Event.FlushRead(pid, tabs));
      if overflow {
        return false, run;
      }
      allDelivered, run := FlushBatch(pid, Batch(tabs), accepted, others, start, run);
      DeliveredIs(start, Records(), Batch(tabs), accepted, allDelivered);
      if forall n :: others(n) == [] {
        FlushedAloneIs(start, Records(), Batch(tabs), accepted);
      }
    }

    /** A flush from its snapshot on. */
    method FlushBatch(pid: nat, batch: seq<nat>, accepted: nat -> bool, others: nat -> seq<Event>,
                      ghost start: State, ghost before: seq<Event>)
      returns (allDelivered: bool, ghost run: seq<Event>)
      requires Records() == Run(start, before) && pid in flights && flights[pid].Flushing?
      requires pid !in start.flights && Records() == start.(flights := start.flights[pid := flights[pid]])
      requires |flights[pid].todo| == |batch| && forall n :: OfOthers(others(n), pid)
      requires forall i :: 0 <= i < |batch| ==> batch[i] in revokes && flights[pid].todo[i] == (batch[i], revokes[batch[i]])
      requires forall i, j :: 0 <= i < j < |batch| ==> batch[i] != batch[j]
      modifies this
      ensures Records() == Run(start, run) && pid !in flights && source == old(source)
      ensures var pending := old(revokes);
        && (allDelivered <==> forall i :: 0 <= i < |batch| ==> Takes(pending, batch, source, accepted, i))
        && AckedUpTo(pending, batch, source, accepted, |batch|, log)
        && ((forall n :: others(n) == []) ==>
              && Records() == start.(revokes := revokes, log := log)
              && revokes == pending - Taken(pending, batch, source, accepted, |batch|)
              && log == start.log + Acks(pending, batch, source, accepted, |batch|))
    {
      hide Step, Run, OfOthers, AckedUpTo, Acks, Taken, Takes, Turned;
      ghost var entry := Records();
      allDelivered, run := DeliverAll(pid, batch, accepted, others, start, before);
      ghost var s := Records();
      if forall n :: others(n) == [] {
        FlushEnds(start, entry, s, pid, batch, accepted);
      }
      var last := FlushPost(pid, false);
      run := Stepped(start, run, s, Event.FlushPost(pid, false));
    }

    /** The loop over the batch. */
    method DeliverAll(pid: nat, batch: seq<nat>, accepted: nat -> bool, others: nat -> seq<Event>,
                      ghost start: State, ghost before: seq<Event>)
      returns (allDelivered: bool, ghost run: seq<Event>)
      requires Records() == Run(start, before) && pid in flights && flights[pid].Flushing?
      requires |flights[pid].todo| == |batch| && forall n :: OfOthers(others(n), pid)
      requires forall i :: 0 <= i < |batch| ==> batch[i] in revokes && flights[pid].todo[i] == (batch[i], revokes[batch[i]])
      requires forall i, j :: 0 <= i < j < |batch| ==> batch[i] != batch[j]
      modifies this
      ensures Records() == Run(start, run) && pid in flights && flights[pid] == Flushing([]) && source == old(source)
      ensures var pending := old(revokes);
        && (allDelivered <==> forall i :: 0 <= i < |batch| ==> Takes(pending, batch, source, accepted, i))
        && AckedUpTo(pending, batch, source, accepted, |batch|, log)
        && ((forall n :: others(n) == []) ==> Records() == Turned(old(Records()), pid, batch, [], accepted, |batch|))
    {
      hide Step, Run, OfOthers, AckedUpTo, Takes, Turned;
      ghost var entry, todo := Records(), flights[pid].todo;
      allDelivered, run := true, before;
      NothingYet(entry, pid, batch, todo, accepted);
      for k := 0 to |batch|
        invariant Records() == Run(start, run) && pid in flights && flights[pid] == Flushing(todo[k..]) && source == entry.source
        invariant allDelivered <==> forall i :: 0 <= i < k ==> Takes(entry.revokes, batch, source, accepted, i)
        invariant AckedUpTo(entry.revokes, batch, source, accepted, k, log)
        invariant (forall n :: others(n) == []) ==> Records() == Turned(entry, pid, batch, todo[k..], accepted, k)
      {
        ghost var s := Records();
        var delivered;
        delivered, run := Deliver(pid, accepted(k), others(3 * k), others(3 * k + 1), others(3 * k + 2), start, run);
        assert todo[k..][0] == todo[k] && todo[k..][1..] == todo[k + 1..];
        TakesIs(entry.revokes, batch, source, accepted, k);
        OneMoreAcked(entry.revokes, batch, source, accepted, k, s.log, log);
        allDelivered := allDelivered && delivered;
        if forall n :: others(n) == [] {
          OneMoreTurn(entry, s, Records(), pid, batch, todo, accepted, k);
        }
      }
      assert todo[|batch|..] == [];
    }

    /** omaIdInvalidate up to its flush. After a global reason the profile is poisoned for good.
        If nobody else was at work exactly the documents it denied are gone, exactly those of
        them that had no notice have one now, and nothing else has changed. */
    method Invalidate(pid: nat, tab: nat, global: bool, others: nat -> seq<Event>) returns (ghost run: seq<Event>)
      requires pid !in flights && forall n :: OfOthers(others(n), pid)
      modifies this
      ensures Records() == Run(old(Records()), run) && pid !in flights
      ensures global || old(poison) ==> poison
      ensures (forall n :: others(n) == []) ==>
                Invalidated(old(Records()), Records(), if global then old(docs).Keys else {tab}, global)
    {
      hide Step, Run, OfOthers, Invalidated;
      ghost var start, s := Records(), Records();
      NothingRuns(start);
      InvalidateRead(pid, tab, global);
      ghost var denying := flights[pid];
      run := Stepped(start, [], start, Event.InvalidateRead(pid, tab, global));
      run := Await(pid, others(0), start, run);
      s := Records();
      InvalidateWrite(pid);
      run := Stepped(start, run, s, Event.InvalidateWrite(pid));
      run := Await(pid, others(1), start, run);
      s := Records();
      InvalidateRemove(pid);
      run := Stepped(start, run, s, Event.InvalidateRemove(pid));
      if forall n :: others(n) == [] {
        DeniesExactly(start, Records(), if global then start.docs.Keys else {tab}, denying, pid);
      }
    }

    /** A new document: the write, and the read that follows it. */
    method PrepareFresh(pid: nat, uuid: set<string> -> string, others: nat -> seq<Event>, ghost start: State, ghost before: seq<Event>)
      returns (r: Option<Doc>, ghost run: seq<Event>)
      requires Records() == Run(start, before) && pid in flights && flights[pid].Fresh?
      requires (forall n :: OfOthers(others(n), pid)) && forall m :: uuid(m) !in m
      modifies this
      ensures Records() == Run(start, run) && old(log) <= log
      ensures var f := old(flights)[pid];
        r.Some? ==> !old(poison) && r.value.documentId == f.documentId && r.value.route == f.route
                    && pid in flights && flights[pid] == Tracking(f.tab, r.value) && Prepared(f.tab, r.value) in log
      ensures r.None? ==> pid !in flights
      ensures (forall n :: others(n) == []) && !old(poison) ==>
                var f := old(flights)[pid];
                var doc := Doc(f.documentId, uuid(old(minted)), f.route, source, false);
                && r == Some(doc)
                && Records() == old(Records()).(docs := old(docs)[f.tab := doc], minted := old(minted) + {uuid(old(minted))},
                                                log := old(log) + [Prepared(f.tab, doc)],
                                                flights := old(flights)[pid := Tracking(f.tab, doc)])
    {
      hide Step, Run, OfOthers;
      run := Await(pid, others(1), start, before);
      ghost var s := Records();
      var epoch := uuid(minted);
      PrepareWrite(pid, epoch);
      run := Stepped(start, run, s, Event.PrepareWrite(pid, epoch));
      run := Await(pid, others(2), start, run);
      s := Records();
      r := PrepareCheck(pid);
      run := Stepped(start, run, s, Event.PrepareCheck(pid));
    }

    /** A document that is known already: one more look at the poison. */
    method PrepareAgain(pid: nat, others: nat -> seq<Event>, ghost start: State, ghost before: seq<Event>)
      returns (r: Option<Doc>, ghost run: seq<Event>)
      requires Records() == Run(start, before) && pid in flights && flights[pid].Known? && forall n :: OfOthers(others(n), pid)
      modifies this
      ensures Records() == Run(start, run) && old(log) <= log
      ensures var f := old(flights)[pid];
        r.Some? ==> !old(poison) && r.value == f.doc && pid in flights && flights[pid] == Tracking(f.tab, f.doc)
                    && Prepared(f.tab, f.doc) in log
      ensures r.None? ==> pid !in flights
      ensures (forall n :: others(n) == []) && !old(poison) ==>
                var f := old(flights)[pid];
                && r == Some(f.doc)
                && Records() == old(Records()).(log := old(log) + [Prepared(f.tab, f.doc)],
                                                flights := old(flights)[pid := Tracking(f.tab, f.doc)])
    {
      hide Step, Run, OfOthers;
      run := Await(pid, others(1), start, before);
      ghost var s := Records();
      r := PrepareKnown(pid);
      run := Stepped(start, run, s, Event.PrepareKnown(pid));
    }

    /** The reads of omaIdPrepare that decide how it goes on. navigated: storage holds a document
        of another page for the tab. */
    method PrepareFirst(pid: nat, tab: nat, documentId: string, route: string, others: seq<Event>)
      returns (navigated: bool, ghost run: seq<Event>)
      requires pid !in flights && OfOthers(others, pid)
      modifies this
      ensures Records() == Run(old(Records()), run) && old(log) <= log && (navigated ==> pid !in flights)
      ensures pid in flights ==>
                !old(poison) && (flights[pid] == Fresh(tab, documentId, route)
                                 || (flights[pid].Known? && flights[pid].tab == tab && flights[pid].doc.documentId == documentId
                                     && flights[pid].doc.route == route))
      ensures others == [] ==>
                var open := OpenTo(old(Records()), tab, documentId, route);
                var same := tab in docs && docs[tab].documentId == documentId && docs[tab].route == route;
                && (navigated <==> open && tab in docs && !same)
                && Records() == if !open || navigated then old(Records())
                                else old(Records()).(flights := old(flights)[pid := if same then Known(tab, docs[tab])
                                                                                    else Fresh(tab, documentId, route)])
    {
      hide Step, Run, OfOthers, Names;
      ghost var start := Records();
      NothingRuns(start);
      var ok := PrepareRead(pid, tab, documentId, route);
      run := Stepped(start, [], start, Event.PrepareRead(pid, tab, documentId, route));
      if !ok {
        return false, run;
      }
      run := Await(pid, others, start, run);
      ghost var s := Records();
      navigated := PrepareLook(pid);
      run := Stepped(start, run, s, Event.PrepareLook(pid));
    }

    /** omaIdPrepare after its flush. A document it hands out is the one that was asked for, and
        poison was not there from its beginning to its last read. If nobody else was at work it
        hands one out exactly when the identifiers are well formed, there is no poison, no
        overflow and no notice for the tab, and the tab's document, if there is one, is of the
        page asked for: this one, or else a new one of this build; and a document of another
        page is invalidated. */
    method Prepare(pid: nat, tab: nat, documentId: string, route: string, uuid: set<string> -> string, others: nat -> seq<Event>)
      returns (r: Option<Doc>, ghost run: seq<Event>)
      requires pid !in flights && (forall n :: OfOthers(others(n), pid)) && forall m :: uuid(m) !in m
      modifies this
      ensures Records() == Run(old(Records()), run) && old(log) <= log
      ensures r.Some? ==> !old(poison) && r.value.documentId == documentId && r.value.route == route
      ensures r.Some? ==> pid in flights && flights[pid] == Tracking(tab, r.value) && Prepared(tab, r.value) in log
      ensures r.None? ==> pid !in flights
      ensures (forall n :: others(n) == []) ==>
                PreparedAlone(old(Records()), Records(), pid, tab, documentId, route, uuid(old(minted)), r)
    {
      hide Step, Run, OfOthers, Invalidated, OpenTo, PreparedAlone, LastAlone;
      ghost var start := Records();
      var navigated;
      navigated, run := PrepareFirst(pid, tab, documentId, route, others(0));
      if navigated {
        ghost var s := Records();
        ghost var denied := Invalidate(pid, tab, false, others);
        RunAppend(start, run, denied);
        LogOnlyGrows(s, denied);
        if forall n :: others(n) == [] {
          NavigatedAlone(start, Records(), pid, tab, documentId, route, uuid(start.minted));
        }
        return None, run + denied;
      }
      if pid !in flights {
        if others(0) == [] {
          ClosedAlone(start, pid, tab, documentId, route, uuid(start.minted));
        }
        return None, run;
      }
      ghost var s := Records();
      r, run := PrepareLast(pid, uuid, others, start, run);
      if forall n :: others(n) == [] {
        OpenAlone(start, s, Records(), pid, tab, documentId, route, uuid(start.minted), r);
      }
    }

    /** The rest of a preparation, whether the document is known or new. */
    method PrepareLast(pid: nat, uuid: set<string> -> string, others: nat -> seq<Event>, ghost start: State, ghost before: seq<Event>)
      returns (r: Option<Doc>, ghost run: seq<Event>)
      requires Records() == Run(start, before) && pid in flights && (flights[pid].Known? || flights[pid].Fresh?)
      requires (forall n :: OfOthers(others(n), pid)) && forall m :: uuid(m) !in m
      modifies this
      ensures Records() == Run(start, run) && old(log) <= log && (r.None? ==> pid !in flights)
      ensures var f := old(flights)[pid];
        r.Some? ==> !old(poison) && pid in flights && flights[pid] == Tracking(f.tab, r.value) && Prepared(f.tab, r.value) in log
                    && (if f.Known? then r.value == f.doc else r.value.documentId == f.documentId && r.value.route == f.route)
      ensures (forall n :: others(n) == []) && !old(poison) ==> LastAlone(old(Records()), Records(), pid, uuid(old(minted)), r)
    {
      hide Step, Run, OfOthers;
      if flights[pid].Known? {
        r, run := PrepareAgain(pid, others, start, before);
      } else {
        r, run := PrepareFresh(pid, uuid, others, start, before);
      }
    }

    /** omaObserveConversation from its publication on, for the document a call has prepared. A
        proof it returns is on record, the relay had accepted the observation before, and poison
        was not there from its beginning to its last read. If nobody else was at work it returns
        one exactly when storage still holds the document, for this page and of this build, with
        no notice and no poison, the relay accepts and the message is witnessed. */
    method Observe(pid: nat, accepted: bool, witnessed: bool, others: nat -> seq<Event>)
      returns (r: Option<Doc>, ghost run: seq<Event>)
      requires pid in flights && flights[pid].Tracking? && forall n :: OfOthers(others(n), pid)
      modifies this
      ensures Records() == Run(old(Records()), run) && old(log) <= log && pid !in flights
      ensures var f := old(flights)[pid];
        r.Some? ==> !old(poison) && accepted && witnessed && r.value == f.doc
                    && Observed(f.tab, f.doc) in log && Proof(f.tab, f.doc) in log
      ensures (forall n :: others(n) == []) ==>
                var f := old(flights)[pid];
                var clear := Current(old(Records()), f.tab, f.doc)
                  && old(docs)[f.tab].documentId == f.doc.documentId && old(docs)[f.tab].source == source;
                && r == (if clear && accepted && witnessed then Some(f.doc) else None)
                && Records() == old(Records()).(
                     docs := if clear && accepted then old(docs)[f.tab := f.doc.(observed := true)] else old(docs),
                     log := old(log) + (if clear then [Observed(f.tab, f.doc)] else []) + (if r.Some? then [Proof(f.tab, f.doc)] else []),
                     flights := old(flights) - {pid})
    {
      hide Step, Run, OfOthers;
      ghost var start, s := Records(), Records();
      NothingRuns(start);
      var ok := PublishRead(pid);
      run := Stepped(start, [], start, Event.PublishRead(pid));
      if !ok {
        return None, run;
      }
      run := Await(pid, others(0), start, run);
      s := Records();
      PublishPost(pid, accepted);
      run := Stepped(start, run, s, Event.PublishPost(pid, accepted));
      if !accepted {
        return None, run;
      }
      ghost var at := |log| - 1;
      assert log[at] == Observed(old(flights)[pid].tab, old(flights)[pid].doc);
      r, run := Prove(pid, witnessed, others, start, run);
      assert log[at] == Observed(old(flights)[pid].tab, old(flights)[pid].doc);
    }

    /** After the relay's reply: the mark and the proof. */
    method Prove(pid: nat, witnessed: bool, others: nat -> seq<Event>, ghost start: State, ghost before: seq<Event>)
      returns (r: Option<Doc>, ghost run: seq<Event>)
      requires Records() == Run(start, before) && pid in flights && flights[pid].Replied? && forall n :: OfOthers(others(n), pid)
      modifies this
      ensures Records() == Run(start, run) && old(log) <= log && pid !in flights
      ensures var f := old(flights)[pid];
        r.Some? ==> !old(poison) && witnessed && r.value == f.doc && Proof(f.tab, f.doc) in log
      ensures (forall n :: others(n) == []) ==>
                var f := old(flights)[pid];
                var clear := Current(old(Records()), f.tab, f.doc);
                && r == (if clear && witnessed then Some(f.doc) else None)
                && Records() == old(Records()).(
                     docs := if clear then old(docs)[f.tab := f.doc.(observed := true)] else old(docs),
                     log := old(log) + (if r.Some? then [Proof(f.tab, f.doc)] else []),
                     flights := old(flights) - {pid})
    {
      hide Step, Run, OfOthers;
      ghost var s: State;
      run := Await(pid, others(1), start, before);
      s := Records();
      var ok := MarkRead(pid);
      run := Stepped(start, run, s, Event.MarkRead(pid));
      if !ok {
        return None, run;
      }
      run := Await(pid, others(2), start, run);
      s := Records();
      MarkWrite(pid);
      run := Stepped(start, run, s, Event.MarkWrite(pid));
      run := Await(pid, others(3), start, run);
      s := Records();
      r := ProofRead(pid, witnessed);
      run := Stepped(start, run, s, Event.ProofRead(pid, witnessed));
    }
  }

  /** The records after the first k turns of a flush that is left alone. */
  function Turned(s: State, pid: nat, batch: seq<nat>, rest: seq<(nat, Notice)>, accepted: nat -> bool, k: nat): State
    requires k <= |batch|
  {
    s.(revokes := s.revokes - Taken(s.revokes, batch, s.source, accepted, k),
       log := s.log + Acks(s.revokes, batch, s.source, accepted, k),
       flights := s.flights[pid := Flushing(rest)])
  }

  lemma NothingYet(s: State, pid: nat, batch: seq<nat>, todo: seq<(nat, Notice)>, accepted: nat -> bool)
    requires pid in s.flights && s.flights[pid] == Flushing(todo)
    ensures AckedUpTo(s.revokes, batch, s.source, accepted, 0, s.log)
    ensures s == Turned(s, pid, batch, todo[0..], accepted, 0)
  {
    assert todo[0..] == todo;
    assert Taken(s.revokes, batch, s.source, accepted, 0) == {};
    assert s.flights == s.flights[pid := Flushing(todo)];
  }

  lemma TakesIs(pending: map<nat, Notice>, batch: seq<nat>, source: string, accepted: nat -> bool, i: nat)
    requires i < |batch| && batch[i] in pending
    ensures Takes(pending, batch, source, accepted, i) <==> pending[batch[i]].source == source && accepted(i)
  {
  }

  lemma DeliveredIs(s: State, t: State, batch: seq<nat>, accepted: nat -> bool, all: bool)
    requires AckedUpTo(s.revokes, batch, s.source, accepted, |batch|, t.log) && forall i :: 0 <= i < |batch| ==> batch[i] in s.revokes
    requires all <==> forall i :: 0 <= i < |batch| ==> Takes(s.revokes, batch, s.source, accepted, i)
    ensures Delivered(s, batch, accepted, all, t.log)
  {
    forall i | 0 <= i < |batch|
      ensures Takes(s.revokes, batch, s.source, accepted, i) <==> s.revokes[batch[i]].source == s.source && accepted(i)
    {
    }
  }

  lemma FlushedAloneIs(s: State, t: State, batch: seq<nat>, accepted: nat -> bool)
    requires forall i :: 0 <= i < |batch| ==> batch[i] in s.revokes
    requires t == s.(revokes := t.revokes, log := t.log)
    requires t.revokes == s.revokes - Taken(s.revokes, batch, s.source, accepted, |batch|)
    requires t.log == s.log + Acks(s.revokes, batch, s.source, accepted, |batch|)
    ensures FlushedAlone(s, t, batch, accepted)
  {
    assert Taken(s.revokes, batch, s.source, accepted, |batch|)
        == set i | 0 <= i < |batch| && s.revokes[batch[i]].source == s.source && accepted(i) :: batch[i] by {
      forall i | 0 <= i < |batch|
        ensures Takes(s.revokes, batch, s.source, accepted, i) <==> s.revokes[batch[i]].source == s.source && accepted(i)
      {
      }
    }
  }

  /** The records after a flush that was left alone. */
  lemma FlushEnds(start: State, entry: State, s: State, pid: nat, batch: seq<nat>, accepted: nat -> bool)
    requires pid !in start.flights && pid in entry.flights && entry == start.(flights := start.flights[pid := entry.flights[pid]])
    requires s == Turned(entry, pid, batch, [], accepted, |batch|)
    ensures var t := s.(flights := s.flights - {pid});
      && t == start.(revokes := s.revokes, log := s.log)
      && s.revokes == start.revokes - Taken(start.revokes, batch, start.source, accepted, |batch|)
      && s.log == start.log + Acks(start.revokes, batch, start.source, accepted, |batch|)
  {
    hide Taken, Acks;
    assert s.flights - {pid} == start.flights;
  }

  /** One more turn of a flush that is left alone. */
  lemma OneMoreTurn(entry: State, s: State, t: State, pid: nat, batch: seq<nat>, todo: seq<(nat, Notice)>, accepted: nat -> bool, k: nat)
    requires k < |batch| == |todo| && batch[k] in entry.revokes && todo[k] == (batch[k], entry.revokes[batch[k]])
    requires forall i :: 0 <= i < k ==> batch[i] != batch[k]
    requires s == Turned(entry, pid, batch, todo[k..], accepted, k)
    requires var delivered := Takes(entry.revokes, batch, entry.source, accepted, k);
      t == s.(revokes := if delivered && batch[k] in s.revokes && s.revokes[batch[k]].epoch == todo[k].1.epoch
                         then s.revokes - {batch[k]} else s.revokes,
              log := if delivered then s.log + [Acked(todo[k].1.epoch)] else s.log,
              flights := s.flights[pid := Flushing(todo[k + 1..])])
    ensures t == Turned(entry, pid, batch, todo[k + 1..], accepted, k + 1)
  {
    OneMoreGone(entry.revokes, batch, entry.source, accepted, k);
    hide Taken, Takes;
    assert t.log == entry.log + Acks(entry.revokes, batch, entry.source, accepted, k + 1);
    assert t.flights == entry.flights[pid := Flushing(todo[k + 1..])];
  }

  lemma {:induction false} BuildStays(s: State, events: seq<Event>, pid: nat)
    requires OfOthers(events, pid)
    ensures Run(s, events).source == s.source
    decreases |events|
  {
    if events != [] {
      assert Step(s, events[0]).source == s.source;
      BuildStays(Step(s, events[0]), events[1..], pid);
    }
  }
}
