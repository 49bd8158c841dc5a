/** observe of edge_extension/conversation-evidence.js: which request belongs to which user
    message, read off the committed props above each anchor of the page. */
module ConversationEvidence {
  import opened Basics

  const MAX_ANCHORS := 200
  const MAX_DEPTH := 80
  const MAX_LISTED := 200
  const MAX_MESSAGES := 600
  const MAX_REQUESTS := 200

  /** A message of the page; a request or an identifier that is not a string is None. */
  datatype Message = Message(role: string, request: Option<string>, id: Option<string>)

  /** The props of one fiber: its conversation identifiers in reading order, its message lists
      and its single message. */
  datatype Props = Props(values: seq<Option<string>>, lists: seq<seq<Message>>, single: Option<Message>)

  /** The committed chain above an anchor, with None for a fiber without props. */
  type Chain = seq<Option<Props>>

  /** An anchor of the page; None if it has no committed fiber. */
  type Anchor = Option<Chain>

  type Pair = (string, string)   // request and message

  function Take<T>(s: seq<T>, n: nat): (r: seq<T>)
    ensures r <= s && |r| <= n
  {
    if |s| <= n then s else s[..n]
  }

  // ---------------------------------------------------------------- what is scanned

  predicate IsId(v: Option<string>) {
    v.Some? && Identifier(v.value)
  }

  /** The well-formed conversation identifiers among the values, in order. */
  function Ids(values: seq<Option<string>>): (r: seq<string>)
    ensures forall v :: v in r <==> Some(v) in values && Identifier(v)
  {
    if values == [] then []
    else
      var last := values[|values| - 1];
      Ids(values[..|values| - 1]) + if IsId(last) then [last.value] else []
  }

  function ChainIds(chain: Chain): seq<string> {
    if chain == [] then []
    else ChainIds(chain[..|chain| - 1]) + if chain[|chain| - 1].Some? then Ids(chain[|chain| - 1].value.values) else []
  }

  function Listed(lists: seq<seq<Message>>): seq<Message> {
    if lists == [] then [] else Listed(lists[..|lists| - 1]) + Take(lists[|lists| - 1], MAX_LISTED)
  }

  function PropsMessages(p: Props): seq<Message> {
    Listed(p.lists) + if p.single.Some? then [p.single.value] else []
  }

  function ChainMessages(chain: Chain): seq<Message> {
    if chain == [] then []
    else ChainMessages(chain[..|chain| - 1]) + if chain[|chain| - 1].Some? then PropsMessages(chain[|chain| - 1].value) else []
  }

  /** The identifiers an anchor shows in its first 80 fibers. */
  function AnchorIds(a: Anchor): seq<string> {
    if a.None? then [] else ChainIds(Take(a.value, MAX_DEPTH))
  }

  /** The messages that count: the first 600 of an anchor that shows a conversation at all. */
  function AnchorMessages(a: Anchor): seq<Message> {
    if AnchorIds(a) == [] then [] else Take(ChainMessages(Take(a.value, MAX_DEPTH)), MAX_MESSAGES)
  }

  predicate WellFormedUser(m: Message) {
    m.role == "user" && IsId(m.request) && IsId(m.id)
  }

  function MessagePairs(messages: seq<Message>): set<Pair> {
    set m | m in messages && WellFormedUser(m) :: (m.request.value, m.id.value)
  }

  function Pairs(anchors: seq<Anchor>): set<Pair> {
    set a, p | a in anchors && p in MessagePairs(AnchorMessages(a)) :: p
  }

  // ---------------------------------------------------------------- what that amounts to

  /** 8 to 160 letters, digits, underscores and hyphens. */
  predicate Names(id: string) {
    8 <= |id| <= 160
    && forall i :: 0 <= i < |id| ==>
         'A' <= id[i] <= 'Z' || 'a' <= id[i] <= 'z' || '0' <= id[i] <= '9' || id[i] == '_' || id[i] == '-'
  }

  lemma NamesIff(id: string)
    ensures Names(id) <==> Identifier(id)
  {
  }

  function First<T>(s: seq<T>, n: nat): seq<T> {
    if |s| <= n then s else s[..n]
  }

  /** Values, lists and fibers are read in their order: identifiers that are well formed, the
      first 200 messages of a list, and of a fiber its lists and then its single message. */
  lemma {:induction false} IdsJoin(a: seq<Option<string>>, b: seq<Option<string>>, v: Option<string>)
    ensures Ids(a + b) == Ids(a) + Ids(b)
    ensures Ids([v]) == if v.Some? && Names(v.value) then [v.value] else []
    decreases |b|
  {
    if v.Some? {
      NamesIff(v.value);
    }
    assert [v][..0] == [];
    hide Identifier, Names;
    if b == [] {
      assert a + b == a;
    } else {
      var n := |b| - 1;
      assert (a + b)[..|a + b| - 1] == a + b[..n];
      IdsJoin(a, b[..n], v);
    }
  }

  lemma {:induction false} ListedJoin(a: seq<seq<Message>>, b: seq<seq<Message>>, l: seq<Message>)
    ensures Listed(a + b) == Listed(a) + Listed(b)
    ensures Listed([l]) == First(l, 200)
    decreases |b|
  {
    assert [l][..0] == [];
    if b == [] {
      assert a + b == a;
    } else {
      var n := |b| - 1;
      assert (a + b)[..|a + b| - 1] == a + b[..n];
      ListedJoin(a, b[..n], l);
    }
  }

  lemma {:induction false} ChainsJoin(a: Chain, b: Chain)
    ensures ChainIds(a + b) == ChainIds(a) + ChainIds(b) && ChainMessages(a + b) == ChainMessages(a) + ChainMessages(b)
    decreases |b|
  {
    hide Ids, PropsMessages;
    if b == [] {
      assert a + b == a;
    } else {
      var n := |b| - 1;
      assert (a + b)[..|a + b| - 1] == a + b[..n];
      ChainsJoin(a, b[..n]);
    }
  }

  lemma FiberReads(p: Props)
    ensures ChainIds([None]) == [] && ChainIds([Some(p)]) == Ids(p.values)
    ensures ChainMessages([None]) == []
    ensures ChainMessages([Some(p)]) == Listed(p.lists) + if p.single.Some? then [p.single.value] else []
  {
    var none: Chain, some: Chain := [None], [Some(p)];
    assert none[..0] == [] && some[..0] == [];
    hide Ids, Listed;
  }

  /** An anchor is read 80 fibers high, and if it shows a conversation, 600 messages deep. */
  lemma AnchorReads(a: Anchor)
    ensures AnchorIds(a) == if a.None? then [] else ChainIds(First(a.value, 80))
    ensures AnchorMessages(a) == if a.None? || ChainIds(First(a.value, 80)) == [] then []
                                 else First(ChainMessages(First(a.value, 80)), 600)
  {
  }

  /** An anchor shows that this message of a user answers to this request. */
  predicate Shows(a: Anchor, request: string, id: string) {
    Names(request) && Names(id) && Message("user", Some(request), Some(id)) in AnchorMessages(a)
  }

  predicate Shown(anchors: seq<Anchor>, request: string, id: string) {
    exists a :: a in anchors && Shows(a, request, id)
  }

  lemma PairsAreShown(anchors: seq<Anchor>, request: string, id: string)
    ensures (request, id) in Pairs(anchors) <==> Shown(anchors, request, id)
  {
    NamesIff(request);
    NamesIff(id);
    hide Names, Identifier, AnchorMessages;
    forall a ensures (request, id) in MessagePairs(AnchorMessages(a)) <==> Shows(a, request, id) {
      PairIsShown(AnchorMessages(a), request, id);
    }
  }

  lemma PairIsShown(messages: seq<Message>, request: string, id: string)
    ensures (request, id) in MessagePairs(messages)
            <==> Identifier(request) && Identifier(id) && Message("user", Some(request), Some(id)) in messages
  {
    hide Identifier;
    var m := Message("user", Some(request), Some(id));
    if m in messages && Identifier(request) && Identifier(id) {
      assert WellFormedUser(m);
    }
  }

  // ---------------------------------------------------------------- when it is evidence

  predicate OneToOne(pairs: set<Pair>) {
    forall p, q :: p in pairs && q in pairs ==> (p.0 == q.0 <==> p.1 == q.1)
  }

  predicate AgreesWith(a: Anchor, route: string) {
    forall v :: v in AnchorIds(a) ==> v == route
  }

  /** Every identifier shown is the route's, some anchor shows it, and the pairs are one-to-one
      and at most 200. */
  predicate Clean(anchors: seq<Anchor>, route: string) {
    && (forall a :: a in anchors ==> AgreesWith(a, route))
    && (exists a :: a in anchors && AnchorIds(a) != [])
    && OneToOne(Pairs(anchors)) && |Pairs(anchors)| <= 200
  }

  /** The outcome depends on which anchors there are, not on the order in which they are walked
      nor on how often one is met. */
  lemma OrderDoesNotMatter(anchors: seq<Anchor>, others: seq<Anchor>, route: string)
    requires forall a :: a in anchors <==> a in others
    ensures Clean(anchors, route) <==> Clean(others, route)
    ensures Pairs(anchors) == Pairs(others)
  {
    assert Pairs(anchors) == Pairs(others);
  }

  /** Clean evidence pairs each request with one message and each message with one request. */
  lemma CleanIsOneToOne(anchors: seq<Anchor>, route: string, p: Pair, q: Pair)
    requires Clean(anchors, route) && p in Pairs(anchors) && q in Pairs(anchors)
    ensures p.0 == q.0 <==> p.1 == q.1
  {
  }

  // ---------------------------------------------------------------- the reader

  predicate AllSame(ids: seq<string>) {
    forall i, j :: 0 <= i < j < |ids| ==> ids[i] == ids[j]
  }

  /** branch is the last identifier seen, conflict whether two of them differed. */
  predicate Tracks(ids: seq<string>, branch: Option<string>, conflict: bool) {
    && branch == (if ids == [] then None else Some(ids[|ids| - 1]))
    && (conflict <==> !AllSame(ids))
  }

  lemma AllSameMore(ids: seq<string>, v: string)
    ensures AllSame(ids + [v]) <==> AllSame(ids) && (ids == [] || ids[|ids| - 1] == v)
  {
    var more := ids + [v];
    if AllSame(more) {
      forall i, j | 0 <= i < j < |ids| ensures ids[i] == ids[j] {
        assert more[i] == more[j];
      }
      if ids != [] {
        assert more[|ids| - 1] == more[|ids|];
      }
    }
    if ids != [] && AllSame(ids) && ids[|ids| - 1] == v {
      forall i, j | 0 <= i < j < |more| ensures more[i] == more[j] {
        assert i < |ids| - 1 ==> ids[i] == ids[|ids| - 1];
      }
    }
  }

  lemma TracksOneMore(ids: seq<string>, branch: Option<string>, conflict: bool, v: string)
    requires Tracks(ids, branch, conflict)
    ensures Tracks(ids + [v], Some(v), conflict || (branch.Some? && branch.value != v))
  {
    AllSameMore(ids, v);
  }

  method ScanValues(values: seq<Option<string>>, branch0: Option<string>, conflict0: bool, ghost ids: seq<string>)
    returns (branch: Option<string>, conflict: bool)
    requires Tracks(ids, branch0, conflict0)
    ensures Tracks(ids + Ids(values), branch, conflict)
  {
    hide Tracks, AllSame, Identifier;
    branch, conflict := branch0, conflict0;
    var i := 0;
    assert ids + [] == ids && values[..0] == [];
    while i < |values|
      invariant 0 <= i <= |values|
      invariant Tracks(ids + Ids(values[..i]), branch, conflict)
    {
      var v := values[i];
      assert values[..i + 1][..i] == values[..i];
      if IsId(v) {
        TracksOneMore(ids + Ids(values[..i]), branch, conflict, v.value);
        assert ids + Ids(values[..i]) + [v.value] == ids + Ids(values[..i + 1]);
        if branch.Some? && branch.value != v.value {
          conflict := true;
        }
        branch := v;
      } else {
        assert Ids(values[..i + 1]) == Ids(values[..i]);
      }
      i := i + 1;
    }
    assert values[..i] == values;
  }

  method AppendMessages(messages0: seq<Message>, p: Props) returns (messages: seq<Message>)
    ensures messages == messages0 + PropsMessages(p)
  {
    messages := messages0;
    var i := 0;
    while i < |p.lists|
      invariant 0 <= i <= |p.lists|
      invariant messages == messages0 + Listed(p.lists[..i])
    {
      assert p.lists[..i + 1][..i] == p.lists[..i];
      ConcatAssoc(messages0, Listed(p.lists[..i]), Take(p.lists[i], MAX_LISTED));
      messages := messages + Take(p.lists[i], MAX_LISTED);
      i := i + 1;
    }
    assert p.lists[..i] == p.lists;
    if p.single.Some? {
      ConcatAssoc(messages0, Listed(p.lists), [p.single.value]);
      messages := messages + [p.single.value];
    }
  }

  lemma NothingTracked()
    ensures ChainIds([]) == [] && ChainMessages([]) == [] && Tracks([], None, false)
  {
  }

  lemma ChainMore(chain: Chain, n: nat)
    requires n < |chain|
    ensures var ids, messages := ChainIds(chain[..n]), ChainMessages(chain[..n]);
      && ChainIds(chain[..n + 1]) == (if chain[n].Some? then ids + Ids(chain[n].value.values) else ids)
      && ChainMessages(chain[..n + 1]) == (if chain[n].Some? then messages + PropsMessages(chain[n].value) else messages)
  {
    hide Ids, PropsMessages;
    assert chain[..n + 1][..n] == chain[..n];
  }

  /** The walk up from an anchor's fiber, at most 80 fibers high. */
  method ReadChain(chain: Chain) returns (branch: Option<string>, conflict: bool, messages: seq<Message>)
    ensures Tracks(AnchorIds(Some(chain)), branch, conflict)
    ensures messages == ChainMessages(Take(chain, MAX_DEPTH))
  {
    NothingTracked();
    hide ChainIds, ChainMessages, PropsMessages, Ids, Tracks;
    branch, conflict, messages := None, false, [];
    var depth := 0;
    assert chain[..0] == [];
    while depth < |chain| && depth < MAX_DEPTH
      invariant 0 <= depth <= |chain| && depth <= MAX_DEPTH
      invariant Tracks(ChainIds(chain[..depth]), branch, conflict)
      invariant messages == ChainMessages(chain[..depth])
    {
      var at := chain[depth];
      ChainMore(chain, depth);
      if at.Some? {
        branch, conflict := ScanValues(at.value.values, branch, conflict, ChainIds(chain[..depth]));
        messages := AppendMessages(messages, at.value);
      }
      depth := depth + 1;
    }
    assert chain[..depth] == Take(chain, MAX_DEPTH);
  }

  /** Both maps hold exactly these pairs. */
  predicate Mirrors(requests: map<string, string>, owners: map<string, string>, pairs: set<Pair>) {
    && (forall p :: p in pairs ==> p.0 in requests && requests[p.0] == p.1 && p.1 in owners && owners[p.1] == p.0)
    && (forall r :: r in requests ==> (r, requests[r]) in pairs)
    && (forall m :: m in owners ==> (owners[m], m) in pairs)
    && |requests| == |pairs|
  }

  lemma MirrorsOneMore(requests: map<string, string>, owners: map<string, string>, pairs: set<Pair>, p: Pair)
    requires Mirrors(requests, owners, pairs)
    requires p.0 in requests ==> requests[p.0] == p.1
    requires p.1 in owners ==> owners[p.1] == p.0
    ensures Mirrors(requests[p.0 := p.1], owners[p.1 := p.0], pairs + {p})
  {
    if p in pairs {
      assert pairs + {p} == pairs;
      assert requests[p.0 := p.1] == requests && owners[p.1 := p.0] == owners;
    } else {
      MirrorsNewPair(requests, owners, pairs, p);
    }
  }

  lemma MirrorsNewPair(requests: map<string, string>, owners: map<string, string>, pairs: set<Pair>, p: Pair)
    requires Mirrors(requests, owners, pairs) && p !in pairs
    requires p.0 in requests ==> requests[p.0] == p.1
    requires p.1 in owners ==> owners[p.1] == p.0
    ensures Mirrors(requests[p.0 := p.1], owners[p.1 := p.0], pairs + {p})
  {
    assert p.0 !in requests && p.1 !in owners;
    var requests', owners', pairs' := requests[p.0 := p.1], owners[p.1 := p.0], pairs + {p};
    forall q | q in pairs' ensures q.0 in requests' && requests'[q.0] == q.1 && q.1 in owners' && owners'[q.1] == q.0 {
    }
    forall r | r in requests' ensures (r, requests'[r]) in pairs' {
    }
    forall m | m in owners' ensures (owners'[m], m) in pairs' {
    }
  }

  lemma ConflictBreaks(requests: map<string, string>, owners: map<string, string>, pairs: set<Pair>, p: Pair)
    requires Mirrors(requests, owners, pairs)
    requires (p.0 in requests && requests[p.0] != p.1) || (p.1 in owners && owners[p.1] != p.0)
    ensures !OneToOne(pairs + {p})
  {
    if p.0 in requests && requests[p.0] != p.1 {
      assert (p.0, requests[p.0]) in pairs + {p} && p in pairs + {p};
    } else {
      assert (owners[p.1], p.1) in pairs + {p} && p in pairs + {p};
    }
  }

  /** Too much already: no larger set of pairs is evidence either. */
  predicate Spoilt(pairs: set<Pair>) {
    !OneToOne(pairs) || |pairs| > MAX_REQUESTS
  }

  lemma SpoiltStays(pairs: set<Pair>, more: set<Pair>)
    requires Spoilt(pairs) && pairs <= more
    ensures Spoilt(more)
  {
    SubsetIsSmaller(pairs, more);
  }

  lemma {:induction false} SubsetIsSmaller<T>(a: set<T>, b: set<T>)
    requires a <= b
    ensures |a| <= |b|
    decreases a
  {
    if a != {} {
      var x :| x in a;
      SubsetIsSmaller(a - {x}, b - {x});
    }
  }

  /** The pair of a message, if it has one. */
  function OnePair(m: Message): set<Pair> {
    if WellFormedUser(m) then {(m.request.value, m.id.value)} else {}
  }

  lemma MessagePairsOneMore(messages: seq<Message>, i: nat)
    requires i < |messages|
    ensures MessagePairs(messages[..i + 1]) == MessagePairs(messages[..i]) + OnePair(messages[i])
    ensures MessagePairs(messages[..i + 1]) <= MessagePairs(messages)
  {
    assert messages[..i + 1] == messages[..i] + [messages[i]];
    forall p | p in MessagePairs(messages[..i + 1]) ensures p in MessagePairs(messages) {
      var m :| m in messages[..i + 1] && WellFormedUser(m) && p == (m.request.value, m.id.value);
      assert m in messages;
    }
  }

  /** Records one pair, unless it cannot be evidence together with the others. */
  method RecordPair(request: string, id: string, requests0: map<string, string>, owners0: map<string, string>, ghost pairs: set<Pair>)
    returns (ok: bool, requests: map<string, string>, owners: map<string, string>)
    requires Mirrors(requests0, owners0, pairs)
    ensures ok ==> Mirrors(requests, owners, pairs + {(request, id)}) && |requests| <= MAX_REQUESTS
    ensures !ok ==> Spoilt(pairs + {(request, id)})
  {
    hide Mirrors, OneToOne;
    requests, owners := requests0, owners0;
    if request in requests && requests[request] != id {
      ConflictBreaks(requests, owners, pairs, (request, id));
      return false, requests, owners;
    }
    if id in owners && owners[id] != request {
      ConflictBreaks(requests, owners, pairs, (request, id));
      return false, requests, owners;
    }
    MirrorsOneMore(requests, owners, pairs, (request, id));
    owners := owners[id := request];
    requests := requests[request := id];
    MirrorsSize(requests, owners, pairs + {(request, id)});
    return |requests| <= MAX_REQUESTS, requests, owners;
  }

  method RecordMessage(m: Message, requests0: map<string, string>, owners0: map<string, string>, ghost pairs: set<Pair>)
    returns (ok: bool, requests: map<string, string>, owners: map<string, string>)
    requires Mirrors(requests0, owners0, pairs) && |requests0| <= MAX_REQUESTS
    ensures ok ==> Mirrors(requests, owners, pairs + OnePair(m)) && |requests| <= MAX_REQUESTS
    ensures !ok ==> Spoilt(pairs + OnePair(m))
  {
    hide Mirrors, Spoilt;
    if !WellFormedUser(m) {
      assert pairs + OnePair(m) == pairs;
      return true, requests0, owners0;
    }
    ok, requests, owners := RecordPair(m.request.value, m.id.value, requests0, owners0, pairs);
  }

  /** Records the pairs of one anchor; it stops as soon as they cannot be evidence. */
  method Record(messages: seq<Message>, requests0: map<string, string>, owners0: map<string, string>, ghost pairs: set<Pair>)
    returns (ok: bool, requests: map<string, string>, owners: map<string, string>)
    requires Mirrors(requests0, owners0, pairs) && |requests0| <= MAX_REQUESTS
    ensures ok ==> Mirrors(requests, owners, pairs + MessagePairs(messages)) && |requests| <= MAX_REQUESTS
    ensures !ok ==> Spoilt(pairs + MessagePairs(messages))
  {
    hide Mirrors, MessagePairs, Spoilt, OneToOne, OnePair, WellFormedUser;
    ok, requests, owners := true, requests0, owners0;
    var i := 0;
    NoMessages(messages, pairs);
    while i < |messages|
      invariant 0 <= i <= |messages| && ok
      invariant Mirrors(requests, owners, pairs + MessagePairs(messages[..i])) && |requests| <= MAX_REQUESTS
    {
      MessagePairsOneMore(messages, i);
      ghost var before, after := pairs + MessagePairs(messages[..i]), pairs + MessagePairs(messages[..i + 1]);
      assert after == before + OnePair(messages[i]);
      ok, requests, owners := RecordMessage(messages[i], requests, owners, before);
      if !ok {
        assert after <= pairs + MessagePairs(messages);
        SpoiltStays(after, pairs + MessagePairs(messages));
        return;
      }
      i := i + 1;
    }
    assert messages[..i] == messages;
  }

  lemma NoMessages(messages: seq<Message>, pairs: set<Pair>)
    ensures pairs + MessagePairs(messages[..0]) == pairs
  {
  }

  lemma MirrorsSize(requests: map<string, string>, owners: map<string, string>, pairs: set<Pair>)
    requires Mirrors(requests, owners, pairs)
    ensures |requests| == |pairs| && OneToOne(pairs)
  {
  }

  // ---------------------------------------------------------------- observe

  /** The conversation and the map from its requests to their messages. */
  datatype Evidence = Evidence(conversation: string, requests: map<string, string>)

  /** The map holds exactly what the anchors show. */
  ghost predicate Reports(requests: map<string, string>, anchors: seq<Anchor>) {
    forall q, m :: Shown(anchors, q, m) <==> q in requests && requests[q] == m
  }

  /** The last 200 anchors of the page. */
  function Scan(page: seq<Anchor>): (r: seq<Anchor>)
    ensures r == if |page| <= 200 then page else page[|page| - 200..]
  {
    if |page| <= MAX_ANCHORS then page else page[|page| - MAX_ANCHORS..]
  }

  lemma PairsOneMore(anchors: seq<Anchor>, i: nat)
    requires i < |anchors|
    ensures Pairs(anchors[..i + 1]) == Pairs(anchors[..i]) + MessagePairs(AnchorMessages(anchors[i]))
    ensures Pairs(anchors[..i + 1]) <= Pairs(anchors)
  {
    hide AnchorMessages, MessagePairs;
    assert anchors[..i + 1] == anchors[..i] + [anchors[i]];
    forall p | p in Pairs(anchors[..i + 1]) ensures p in Pairs(anchors) {
      var a :| a in anchors[..i + 1] && p in MessagePairs(AnchorMessages(a));
      assert a in anchors;
    }
  }

  /** What the flags of the main loop say of the anchors walked so far. */
  ghost predicate Flags(anchors: seq<Anchor>, route: string, conversation: Option<string>, conflict: bool) {
    && (conflict <==> exists a :: a in anchors && !AgreesWith(a, route))
    && (conversation.Some? <==> exists a :: a in anchors && AnchorIds(a) != [])
    && (conversation.Some? && !conflict ==> conversation.value == route)
  }

  lemma AgreesIff(a: Anchor, route: string, branch: string, conflict: bool)
    requires Tracks(AnchorIds(a), Some(branch), conflict)
    ensures AgreesWith(a, route) <==> !conflict && branch == route
  {
    var ids := AnchorIds(a);
    if !conflict && branch == route {
      forall v | v in ids ensures v == route {
        var i :| 0 <= i < |ids| && ids[i] == v;
        assert i < |ids| - 1 ==> ids[i] == ids[|ids| - 1];
      }
    } else if AgreesWith(a, route) {
      assert ids[|ids| - 1] in ids;
      assert forall i :: 0 <= i < |ids| ==> ids[i] in ids;
    }
  }

  lemma FlagsOneMore(anchors: seq<Anchor>, a: Anchor, route: string, conversation: Option<string>, conflict: bool,
                     branch: Option<string>, inner: bool)
    requires Flags(anchors, route, conversation, conflict) && Tracks(AnchorIds(a), branch, inner)
    ensures if branch.None? then Flags(anchors + [a], route, conversation, conflict)
            else Flags(anchors + [a], route, branch, conflict || inner || branch.value != route
                                                     || (conversation.Some? && conversation != branch))
  {
    hide AnchorIds;
    assert forall x :: x in anchors + [a] <==> x in anchors || x == a;
    if branch.Some? {
      AgreesIff(a, route, branch.value, inner);
    } else {
      assert AgreesWith(a, route);
    }
  }

  lemma CleanFrom(anchors: seq<Anchor>, route: string, conversation: Option<string>, conflict: bool,
                  requests: map<string, string>, owners: map<string, string>)
    requires Walked(anchors, route, conversation, conflict, requests, owners)
    ensures Clean(anchors, route) <==> !conflict && conversation.Some?
  {
    MirrorsSize(requests, owners, Pairs(anchors));
  }

  /** What the main loop holds: its flags and its maps stand for the anchors walked so far. */
  ghost predicate Walked(anchors: seq<Anchor>, route: string, conversation: Option<string>, conflict: bool,
                         requests: map<string, string>, owners: map<string, string>) {
    Flags(anchors, route, conversation, conflict) && Mirrors(requests, owners, Pairs(anchors)) && |requests| <= MAX_REQUESTS
  }

  /** One turn of the main loop. */
  method ScanAnchor(a: Anchor, route: string, conversation0: Option<string>, conflict0: bool, requests0: map<string, string>,
                    owners0: map<string, string>, ghost before: seq<Anchor>)
    returns (ok: bool, conversation: Option<string>, conflict: bool, requests: map<string, string>, owners: map<string, string>)
    requires Walked(before, route, conversation0, conflict0, requests0, owners0)
    ensures ok ==> Walked(before + [a], route, conversation, conflict, requests, owners)
    ensures !ok ==> Spoilt(Pairs(before + [a]))
  {
    hide Flags, Mirrors, Spoilt, Tracks, AnchorMessages, AnchorIds, MessagePairs, Pairs;
    ok, conversation, conflict, requests, owners := true, conversation0, conflict0, requests0, owners0;
    PairsOneMore(before + [a], |before|);
    assert (before + [a])[..|before|] == before && (before + [a])[..|before| + 1] == before + [a];
    var branch, inner, messages := None, false, [];
    if a.Some? {
      branch, inner, messages := ReadChain(a.value);
    } else {
      NoChain(a);
    }
    FlagsOneMore(before, a, route, conversation, conflict, branch, inner);
    MessagesOf(a, branch, inner, messages);
    if branch.Some? {
      if inner || branch.value != route || (conversation.Some? && conversation != branch) {
        conflict := true;
      }
      conversation := branch;
      ok, requests, owners := Record(Take(messages, MAX_MESSAGES), requests, owners, Pairs(before));
    }
  }

  /** The main loop over the scanned anchors. */
  method WalkAnchors(anchors: seq<Anchor>, route: string)
    returns (ok: bool, conversation: Option<string>, conflict: bool, requests: map<string, string>, owners: map<string, string>)
    ensures ok ==> Walked(anchors, route, conversation, conflict, requests, owners)
    ensures !ok ==> !Clean(anchors, route)
  {
    hide *;
    ok, conversation, conflict, requests, owners := true, None, false, map[], map[];
    var i := 0;
    NothingScanned(anchors, route);
    while i < |anchors|
      invariant 0 <= i <= |anchors| && ok
      invariant Walked(anchors[..i], route, conversation, conflict, requests, owners)
    {
      ok, conversation, conflict, requests, owners :=
        ScanAnchor(anchors[i], route, conversation, conflict, requests, owners, anchors[..i]);
      assert anchors[..i + 1] == anchors[..i] + [anchors[i]];
      if !ok {
        PairsOneMore(anchors, i);
        SpoiltStays(Pairs(anchors[..i + 1]), Pairs(anchors));
        NotClean(anchors, route);
        return;
      }
      i := i + 1;
    }
    assert anchors[..i] == anchors;
  }

  /** observe, given the origin check, the route of the page and whether the document stayed the
      same. It answers exactly when the anchors it scanned are clean. */
  method Observe(page: seq<Anchor>, origin: bool, route: Option<string>, stable: bool) returns (r: Option<Evidence>)
    ensures r.Some? <==> origin && route.Some? && stable && Clean(Scan(page), route.value)
    ensures r.Some? ==> r.value.conversation == route.value
    ensures r.Some? ==> Reports(r.value.requests, Scan(page))
  {
    hide *;
    if !origin || route.None? {
      return None;
    }
    var ok, conversation, conflict, requests, owners := WalkAnchors(Scan(page), route.value);
    if !ok {
      return None;
    }
    CleanFrom(Scan(page), route.value, conversation, conflict, requests, owners);
    if conflict || conversation.None? || !stable {
      return None;
    }
    EvidenceIs(Scan(page), route.value, conversation.value, requests, owners);
    return Some(Evidence(conversation.value, requests));
  }

  lemma NothingScanned(anchors: seq<Anchor>, route: string)
    ensures Walked(anchors[..0], route, None, false, map[], map[])
  {
    assert Pairs(anchors[..0]) == {};
  }

  lemma NoChain(a: Anchor)
    requires a.None?
    ensures Tracks(AnchorIds(a), None, false)
  {
  }

  lemma MessagesOf(a: Anchor, branch: Option<string>, inner: bool, messages: seq<Message>)
    requires Tracks(AnchorIds(a), branch, inner) && (a.Some? ==> messages == ChainMessages(Take(a.value, MAX_DEPTH)))
    ensures AnchorMessages(a) == if branch.None? then [] else Take(messages, MAX_MESSAGES)
    ensures branch.None? ==> forall pairs: set<Pair> :: pairs + MessagePairs(AnchorMessages(a)) == pairs
  {
  }

  lemma NotClean(anchors: seq<Anchor>, route: string)
    requires Spoilt(Pairs(anchors))
    ensures !Clean(anchors, route)
  {
  }

  lemma EvidenceIs(anchors: seq<Anchor>, route: string, conversation: string, requests: map<string, string>, owners: map<string, string>)
    requires Walked(anchors, route, Some(conversation), false, requests, owners)
    ensures conversation == route && Reports(requests, anchors)
  {
    hide Pairs, Shown;
    forall q, m ensures Shown(anchors, q, m) <==> q in requests && requests[q] == m {
      PairsAreShown(anchors, q, m);
    }
  }
}
