/** What every run of the voice ledger keeps.

    A generation of a call is reserved by one start or rebind, and only the flight that reserved
    it may reach the provider for it: once, after the reservation is committed. An active row
    stands on the exchange logged for its generation, and a recorded outcome on what its flight
    brought back. Each step is shown to keep this and to only add to what was promised before. */
module VoiceSafety {
  import opened Basics
  import opened VoiceLedger

  /** The provider has seen this exchange. */
  ghost predicate Logged(s: State, x: Exchange) {
    x in s.log
  }

  /** No exchange was ever made for this generation of this call, nor for this request. */
  ghost predicate Silent(s: State, origin: Origin, callId: string, generation: nat) {
    forall x :: x in s.log ==> x.origin != origin && !(x.callId == callId && x.generation == generation)
  }

  /** Two different exchanges have different requests and different generations behind them. */
  ghost predicate LogDistinct(s: State) {
    forall i, j :: 0 <= i < j < |s.log| ==> Apart(s.log[i], s.log[j])
  }

  predicate Apart(x: Exchange, y: Exchange) {
    x.origin != y.origin && !(x.callId == y.callId && x.generation == y.generation)
  }

  /** An exchange follows a reservation committed before it. */
  ghost predicate Reserved(s: State, x: Exchange) {
    match x.origin
    case StartOrigin(k) => k in s.requests && s.requests[k].callId == x.callId && x.generation == 1
    case RebindOrigin(k) =>
      && k in s.effects && s.effects[k].intent.RebindIntent? && s.effects[k].intent.callId == x.callId
      && x.callId in s.calls && 2 <= x.generation <= s.calls[x.callId].generation
  }

  ghost predicate LogReserved(s: State) {
    forall x :: x in s.log ==> Reserved(s, x)
  }

  ghost predicate RequestsDistinct(s: State) {
    forall k, m :: k in s.requests && m in s.requests && s.requests[k].callId == s.requests[m].callId ==> k == m
  }

  /** A call row belongs to the request that reserved its identity. */
  ghost predicate CallReserved(s: State, c: string)
    requires c in s.calls
  {
    var k := RequestKey(s.calls[c].owner, s.calls[c].project, s.calls[c].startKey);
    k in s.requests && s.requests[k].callId == c && 1 <= s.calls[c].generation
  }

  ghost predicate CallsReserved(s: State) {
    forall c :: c in s.calls ==> CallReserved(s, c)
  }

  /** What a flight may rely on. */
  ghost predicate FlightOk(s: State, f: Flight) {
    match f
    case StartReserved(k, c, _, _) =>
      k in s.requests && s.requests[k].callId == c && c !in s.calls && Silent(s, StartOrigin(k), c, 1)
    case StartAnswered(k, c, _, _, answer) =>
      k in s.requests && s.requests[k].callId == c && c !in s.calls
      && Logged(s, Exchange(StartOrigin(k), c, 1, answer))
    case RebindReserved(k, c, g, _, _) =>
      Rebinding(s, k, c, g) && Silent(s, RebindOrigin(k), c, g)
    case RebindAnswered(k, c, g, _, granted) =>
      Rebinding(s, k, c, g) && Logged(s, Exchange(RebindOrigin(k), c, g, Some(granted)))
    case RebindFailed(c, g, _) => c in s.calls && 2 <= g <= s.calls[c].generation
    case FinishCommitted(k, c, target) =>
      k in s.effects && s.effects[k].intent.FinishIntent? && s.effects[k].intent.callId == c
      && s.effects[k].intent.target == target && c in s.calls
    case StatusExpiring(c, _) => c in s.calls
    case SidebandReading(c, _) => c in s.calls
  }

  ghost predicate Rebinding(s: State, k: RequestKey, c: string, g: nat) {
    && k in s.effects && s.effects[k].intent.RebindIntent? && s.effects[k].intent.callId == c
    && c in s.calls && 2 <= g <= s.calls[c].generation
  }

  ghost predicate FlightsOk(s: State) {
    forall p :: p in s.flights ==> FlightOk(s, s.flights[p])
  }

  /** Two flights never work for the same request, nor on the same generation of a call. */
  predicate Exclusive(f: Flight, g: Flight) {
    && (Owns(f) && Owns(g) ==> KeyOf(f) != KeyOf(g))
    && (Exchanges(f) && Exchanges(g) ==> SlotOf(f) != SlotOf(g))
  }

  /** Flights that go on to record the outcome of a request. */
  predicate Owns(f: Flight) {
    Exchanges(f) || f.FinishCommitted?
  }

  predicate Exchanges(f: Flight) {
    f.StartReserved? || f.StartAnswered? || f.RebindReserved? || f.RebindAnswered?
  }

  /** Starts and effects keep their keys in different tables. */
  function KeyOf(f: Flight): (bool, RequestKey)
    requires Owns(f)
  {
    (f.StartReserved? || f.StartAnswered?, f.k)
  }

  function SlotOf(f: Flight): (string, nat)
    requires Exchanges(f)
  {
    (f.callId, if f.StartReserved? || f.StartAnswered? then 1 else f.generation)
  }

  ghost predicate FlightsExclusive(s: State) {
    forall p, q :: p in s.flights && q in s.flights && p != q ==> Exclusive(s.flights[p], s.flights[q])
  }

  /** The exchange an active row stands on: made for the row's current generation, and both
      the description and the reference in the row are its answer. */
  ghost predicate StandsOn(row: CallRow, c: string, x: Exchange) {
    && x.callId == c && x.generation == row.generation && x.answer.Some?
    && row.sdp == Some(x.answer.value.sdp) && row.ref == Some(x.answer.value.ref)
  }

  ghost predicate Coherent(s: State, c: string)
    requires c in s.calls
  {
    s.calls[c].status == Active ==> exists x :: Logged(s, x) && StandsOn(s.calls[c], c, x)
  }

  ghost predicate ActiveCoherent(s: State) {
    forall c :: c in s.calls ==> Coherent(s, c)
  }

  /** A recorded outcome repeats the answer of the request's own exchange. */
  ghost predicate StartReplyTrue(s: State, k: RequestKey)
    requires k in s.requests
  {
    var r := s.requests[k];
    r.result.Some? ==> Logged(s, Exchange(StartOrigin(k), r.callId, 1, r.result))
  }

  ghost predicate EffectReplyTrue(s: State, k: RequestKey)
    requires k in s.effects
  {
    match s.effects[k].result
    case None => true
    case Some(RebindResult(c, g, _, answer)) =>
      s.effects[k].intent.RebindIntent? && s.effects[k].intent.callId == c
      && Logged(s, Exchange(RebindOrigin(k), c, g, Some(answer)))
    case Some(FinishResult(c, st, _)) =>
      s.effects[k].intent.FinishIntent? && s.effects[k].intent.callId == c
      && (st == s.effects[k].intent.target || st == Revoked)
  }

  ghost predicate RepliesTrue(s: State) {
    && (forall k :: k in s.requests ==> StartReplyTrue(s, k))
    && (forall k :: k in s.effects ==> EffectReplyTrue(s, k))
  }

  ghost predicate Inv(s: State) {
    && LogDistinct(s) && LogReserved(s) && RequestsDistinct(s) && CallsReserved(s)
    && FlightsOk(s) && FlightsExclusive(s) && ActiveCoherent(s) && RepliesTrue(s)
  }

  lemma InitHolds()
    ensures Inv(Init)
  {
  }

  /** What no step undoes: reservations and their intents, calls and their owners; the
      generation of a call never decreases, and the provider forgets nothing. */
  ghost predicate Grows(s: State, t: State) {
    && (forall k :: k in s.requests ==> RequestKept(s, t, k))
    && (forall k :: k in s.effects ==> EffectKept(s, t, k))
    && (forall c :: c in s.calls ==> CallKept(s, t, c))
    && s.log <= t.log
  }

  predicate RequestKept(s: State, t: State, k: RequestKey)
    requires k in s.requests
  {
    && k in t.requests && t.requests[k].callId == s.requests[k].callId && t.requests[k].intent == s.requests[k].intent
  }

  predicate EffectKept(s: State, t: State, k: RequestKey)
    requires k in s.effects
  {
    k in t.effects && t.effects[k].intent == s.effects[k].intent
  }

  predicate CallKept(s: State, t: State, c: string)
    requires c in s.calls
  {
    && c in t.calls && s.calls[c].generation <= t.calls[c].generation
    && t.calls[c].owner == s.calls[c].owner && t.calls[c].project == s.calls[c].project
    && t.calls[c].startKey == s.calls[c].startKey && t.calls[c].binding == s.calls[c].binding
  }

  lemma CarryLog(s: State, t: State)
    requires Grows(s, t) && t.log == s.log && LogDistinct(s) && LogReserved(s)
    ensures LogDistinct(t) && LogReserved(t)
  {
    forall x | x in t.log
      ensures Reserved(t, x)
    {
      assert Reserved(s, x);
      match x.origin
      case StartOrigin(k) => assert RequestKept(s, t, k);
      case RebindOrigin(k) => assert EffectKept(s, t, k) && CallKept(s, t, x.callId);
    }
  }

  lemma CarryFlight(s: State, t: State, f: Flight)
    requires Grows(s, t) && t.log == s.log && FlightOk(s, f)
    requires StartFlight(f) ==> f.callId !in t.calls
    ensures FlightOk(t, f)
  {
    if StartFlight(f) {
      assert RequestKept(s, t, f.k);
    } else {
      assert CallKept(s, t, f.callId);
    }
    if f.RebindReserved? || f.RebindAnswered? || f.FinishCommitted? {
      assert EffectKept(s, t, f.k);
    }
  }

  /** A row update that leaves an active row's exchange alone, or makes the row inactive. */
  predicate SameStanding(row: CallRow, row': CallRow) {
    row'.status == Active ==> row.status == Active && row'.generation == row.generation && row'.sdp == row.sdp && row'.ref == row.ref
  }

  lemma CarryCall(s: State, t: State, c: string)
    requires Grows(s, t) && c in s.calls && CallReserved(s, c) && Coherent(s, c)
    requires SameStanding(s.calls[c], t.calls[c])
    ensures CallReserved(t, c) && Coherent(t, c)
  {
    assert CallKept(s, t, c);
    assert RequestKept(s, t, RequestKey(s.calls[c].owner, s.calls[c].project, s.calls[c].startKey));
    if t.calls[c].status == Active {
      var x :| Logged(s, x) && StandsOn(s.calls[c], c, x);
      assert Logged(t, x) && StandsOn(t.calls[c], c, x);
    }
  }

  lemma CarryReplies(s: State, t: State)
    requires RepliesTrue(s) && t.requests == s.requests && t.effects == s.effects && s.log <= t.log
    ensures RepliesTrue(t)
  {
    assert forall x :: x in s.log ==> x in t.log;
    assert forall k :: k in t.requests ==> StartReplyTrue(s, k);
    assert forall k :: k in t.effects ==> EffectReplyTrue(s, k);
  }

  lemma CarryFlights(s: State, t: State)
    requires Grows(s, t) && t.log == s.log && FlightsOk(s) && t.flights == s.flights
    requires forall p :: p in s.flights && StartFlight(s.flights[p]) ==> s.flights[p].callId !in t.calls
    ensures FlightsOk(t)
  {
    forall p | p in t.flights
      ensures FlightOk(t, t.flights[p])
    {
      CarryFlight(s, t, s.flights[p]);
    }
  }

  /** The call of a start does not exist before its outcome is persisted. */
  lemma StartsPrecedeCalls(s: State)
    requires FlightsOk(s)
    ensures forall p :: p in s.flights && StartFlight(s.flights[p]) ==> s.flights[p].callId !in s.calls
  {
    assert forall p :: p in s.flights ==> FlightOk(s, s.flights[p]);
  }

  // A step is a sequence of the following changes, each of one component.

  lemma UpdateRow(s: State, c: string, row: CallRow) returns (t: State)
    requires Inv(s) && c in s.calls
    ensures t == s.(calls := s.calls[c := row])
    requires CallKept(s, s.(calls := s.calls[c := row]), c)
    requires SameStanding(s.calls[c], row) || Coherent(s.(calls := s.calls[c := row]), c)
    ensures Inv(t) && Grows(s, t)
  {
    t := s.(calls := s.calls[c := row]);
    hide FlightOk, Exclusive, Reserved;
    assert Grows(s, t);
    StartsPrecedeCalls(s);
    CarryLog(s, t);
    CarryFlights(s, t);
    forall d | d in t.calls
      ensures CallReserved(t, d) && Coherent(t, d)
    {
      assert CallReserved(s, d) && Coherent(s, d);
      if d != c || SameStanding(s.calls[c], row) {
        CarryCall(s, t, d);
      }
    }
    CarryReplies(s, t);
  }

  lemma InsertCall(s: State, c: string, row: CallRow) returns (t: State)
    requires Inv(s) && c !in s.calls
    requires forall p :: p in s.flights && StartFlight(s.flights[p]) ==> s.flights[p].callId != c
    ensures t == s.(calls := s.calls[c := row])
    requires CallReserved(s.(calls := s.calls[c := row]), c) && Coherent(s.(calls := s.calls[c := row]), c)
    ensures Inv(t) && Grows(s, t)
  {
    t := s.(calls := s.calls[c := row]);
    hide FlightOk, Exclusive, Reserved;
    assert Grows(s, t);
    StartsPrecedeCalls(s);
    CarryLog(s, t);
    CarryFlights(s, t);
    forall d | d in t.calls && d != c
      ensures CallReserved(t, d) && Coherent(t, d)
    {
      CarryCall(s, t, d);
    }
    CarryReplies(s, t);
  }

  lemma InsertRequest(s: State, k: RequestKey, row: RequestRow) returns (t: State)
    requires Inv(s) && k !in s.requests && row.result.None? && !CallIdTaken(s, row.callId)
    ensures t == s.(requests := s.requests[k := row])
    ensures Inv(t) && Grows(s, t)
  {
    hide FlightOk, Exclusive, Reserved, Coherent, CallReserved, EffectReplyTrue, RequestsDistinct, CallIdTaken;
    t := s.(requests := s.requests[k := row]);
    assert Grows(s, t);
    RequestsStayDistinct(s, k, row);
    StartsPrecedeCalls(s);
    CarryLog(s, t);
    CarryFlights(s, t);
    CarryCalls(s, t);
    CarryEffectReplies(s, t);
    assert forall m :: m in s.requests ==> StartReplyTrue(s, m);
  }

  lemma RequestsStayDistinct(s: State, k: RequestKey, row: RequestRow)
    requires RequestsDistinct(s) && !CallIdTaken(s, row.callId)
    ensures RequestsDistinct(s.(requests := s.requests[k := row]))
  {
  }

  lemma CarryEffectReplies(s: State, t: State)
    requires RepliesTrue(s) && s.log <= t.log && t.effects == s.effects
    ensures forall k :: k in t.effects ==> EffectReplyTrue(t, k)
  {
    forall k | k in t.effects
      ensures EffectReplyTrue(t, k)
    {
      EffectReplyCarries(s, t, k);
    }
  }

  lemma EffectReplyCarries(s: State, t: State, k: RequestKey)
    requires s.log <= t.log && k in s.effects && k in t.effects && t.effects[k] == s.effects[k] && EffectReplyTrue(s, k)
    ensures EffectReplyTrue(t, k)
  {
    assert forall x :: x in s.log ==> x in t.log;
  }

  lemma CarryCalls(s: State, t: State)
    requires Grows(s, t) && CallsReserved(s) && ActiveCoherent(s) && t.calls == s.calls
    ensures CallsReserved(t) && ActiveCoherent(t)
  {
    forall d | d in t.calls
      ensures CallReserved(t, d) && Coherent(t, d)
    {
      CarryCall(s, t, d);
    }
  }

  lemma InsertEffect(s: State, k: RequestKey, row: EffectRow) returns (t: State)
    requires Inv(s) && k !in s.effects
    ensures t == s.(effects := s.effects[k := row])
    requires EffectReplyTrue(s.(effects := s.effects[k := row]), k)
    ensures Inv(t) && Grows(s, t)
  {
    t := s.(effects := s.effects[k := row]);
    hide FlightOk, Exclusive, Reserved, Coherent, CallReserved;
    assert Grows(s, t);
    StartsPrecedeCalls(s);
    CarryLog(s, t);
    CarryFlights(s, t);
    CarryCalls(s, t);
    assert forall m :: m in s.requests ==> StartReplyTrue(s, m);
    assert forall m :: m in s.effects ==> EffectReplyTrue(s, m);
  }

  lemma RecordStart(s: State, k: RequestKey, result: Option<Answer>) returns (t: State)
    requires Inv(s) && k in s.requests
    ensures t == s.(requests := s.requests[k := s.requests[k].(result := result)])
    requires result.Some? ==> Logged(s, Exchange(StartOrigin(k), s.requests[k].callId, 1, result))
    ensures Inv(t) && Grows(s, t)
  {
    t := s.(requests := s.requests[k := s.requests[k].(result := result)]);
    hide FlightOk, Exclusive, Reserved, Coherent, CallReserved, EffectReplyTrue;
    assert Grows(s, t);
    StartsPrecedeCalls(s);
    CarryLog(s, t);
    CarryFlights(s, t);
    CarryCalls(s, t);
    assert forall m :: m in s.requests ==> StartReplyTrue(s, m);
    CarryEffectReplies(s, t);
  }

  lemma RecordEffect(s: State, k: RequestKey, result: Option<EffectResult>) returns (t: State)
    requires Inv(s) && k in s.effects
    ensures t == s.(effects := s.effects[k := s.effects[k].(result := result)])
    requires EffectReplyTrue(s.(effects := s.effects[k := s.effects[k].(result := result)]), k)
    ensures Inv(t) && Grows(s, t)
  {
    t := s.(effects := s.effects[k := s.effects[k].(result := result)]);
    hide FlightOk, Exclusive, Reserved, Coherent, CallReserved;
    assert Grows(s, t);
    StartsPrecedeCalls(s);
    CarryLog(s, t);
    CarryFlights(s, t);
    CarryCalls(s, t);
    assert forall m :: m in s.requests ==> StartReplyTrue(s, m);
    assert forall m :: m in s.effects ==> EffectReplyTrue(s, m);
  }

  /** Flights only disappear. */
  lemma DropFlights(s: State, flights: map<nat, Flight>) returns (t: State)
    requires Inv(s) && forall p :: p in flights ==> p in s.flights && flights[p] == s.flights[p]
    ensures t == s.(flights := flights)
    ensures Inv(t) && Grows(s, t)
  {
    hide Exclusive;
    t := s.(flights := flights);
    assert Grows(s, t);
    CarryLog(s, t);
    CarryCalls(s, t);
    CarryReplies(s, t);
    forall p | p in flights
      ensures FlightOk(t, flights[p])
    {
      CarryFlight(s, t, s.flights[p]);
    }
    forall p, q | p in flights && q in flights && p != q
      ensures Exclusive(flights[p], flights[q])
    {
      assert Exclusive(s.flights[p], s.flights[q]);
    }
  }

  lemma AddFlight(s: State, p: nat, f: Flight) returns (t: State)
    requires Inv(s) && p !in s.flights && FlightOk(s, f)
    requires forall q :: q in s.flights ==> Exclusive(f, s.flights[q])
    ensures t == s.(flights := s.flights[p := f])
    ensures Inv(t) && Grows(s, t)
  {
    hide Reserved, Coherent, CallReserved, EffectReplyTrue, StartReplyTrue;
    t := s.(flights := s.flights[p := f]);
    assert Grows(s, t);
    StartsPrecedeCalls(s);
    CarryLog(s, t);
    CarryCalls(s, t);
    CarryReplies(s, t);
    forall q | q in t.flights
      ensures FlightOk(t, t.flights[q])
    {
      CarryFlight(s, t, t.flights[q]);
    }
    forall q, r | q in t.flights && r in t.flights && q != r
      ensures Exclusive(t.flights[q], t.flights[r])
    {
      assert q != p && r != p ==> Exclusive(s.flights[q], s.flights[r]);
    }
  }

  /** The provider sees one more exchange, for a reservation nobody else holds. */
  lemma AppendLog(s: State, x: Exchange) returns (t: State)
    requires Inv(s) && Reserved(s, x) && Silent(s, x.origin, x.callId, x.generation)
    requires forall q :: q in s.flights && Exchanges(s.flights[q]) ==>
      OriginOf(s.flights[q]) != x.origin && SlotOf(s.flights[q]) != (x.callId, x.generation)
    ensures t == s.(log := s.log + [x])
    ensures Inv(t) && Grows(s, t)
  {
    t := s.(log := s.log + [x]);
    assert forall y :: y in t.log <==> y in s.log || y == x;
    assert Grows(s, t);
    forall y | y in t.log
      ensures Reserved(t, y)
    {
      assert y in s.log ==> Reserved(s, y);
    }
    forall i, j | 0 <= i < j < |t.log|
      ensures Apart(t.log[i], t.log[j])
    {
      assert t.log[i] in s.log;
    }
    CarryCalls(s, t);
    CarryReplies(s, t);
    forall q | q in t.flights
      ensures FlightOk(t, t.flights[q])
    {
      assert FlightOk(s, s.flights[q]);
    }
  }

  predicate StartFlight(f: Flight) {
    f.StartReserved? || f.StartAnswered?
  }

  function OriginOf(f: Flight): Origin
    requires Exchanges(f)
  {
    if StartFlight(f) then StartOrigin(f.k) else RebindOrigin(f.k)
  }

  lemma GrowsTrans(s: State, t: State, u: State)
    requires Grows(s, t) && Grows(t, u)
    ensures Grows(s, u)
  {
    hide RequestKept, EffectKept, CallKept;
    forall k | k in s.requests
      ensures RequestKept(s, u, k)
    {
      RequestKeptTrans(s, t, u, k);
    }
    forall k | k in s.effects
      ensures EffectKept(s, u, k)
    {
      EffectKeptTrans(s, t, u, k);
    }
    forall c | c in s.calls
      ensures CallKept(s, u, c)
    {
      CallKeptTrans(s, t, u, c);
    }
  }

  lemma GrowsSelf(s: State)
    ensures Grows(s, s)
  {
  }

  lemma RequestKeptTrans(s: State, t: State, u: State, k: RequestKey)
    requires k in s.requests && RequestKept(s, t, k) && (k in t.requests ==> RequestKept(t, u, k))
    ensures RequestKept(s, u, k)
  {
  }

  lemma EffectKeptTrans(s: State, t: State, u: State, k: RequestKey)
    requires k in s.effects && EffectKept(s, t, k) && (k in t.effects ==> EffectKept(t, u, k))
    ensures EffectKept(s, u, k)
  {
  }

  lemma CallKeptTrans(s: State, t: State, u: State, c: string)
    requires c in s.calls && CallKept(s, t, c) && (c in t.calls ==> CallKept(t, u, c))
    ensures CallKept(s, u, c)
  {
  }

  lemma FlightFact(s: State, pid: nat)
    requires Inv(s) && pid in s.flights
    ensures FlightOk(s, s.flights[pid])
  {
  }

  lemma CallFact(s: State, c: string)
    requires Inv(s) && c in s.calls
    ensures CallReserved(s, c)
  {
  }

  // Every step, as a sequence of such changes.

  lemma StartRequestKeeps(s: State, e: Event)
    requires Inv(s) && e.StartRequest?
    ensures Inv(Step(s, e)) && Grows(s, Step(s, e))
  {
    hide Inv, Grows;
    GrowsSelf(s);
    if Step(s, e) != s {
      var a := InsertRequest(s, e.k, RequestRow(e.intent, e.callId, None));
      FreshStart(s, a, e.k, e.callId, e.intent, e.now);
      var b := AddFlight(a, e.pid, StartReserved(e.k, e.callId, e.intent, e.now));
      GrowsTrans(s, a, b);
    }
  }

  lemma FreshStart(s: State, a: State, k: RequestKey, c: string, intent: StartIntent, now: int)
    requires Inv(s) && k !in s.requests && !CallIdTaken(s, c)
    requires a == s.(requests := s.requests[k := RequestRow(intent, c, None)])
    ensures FlightOk(a, StartReserved(k, c, intent, now))
    ensures forall q :: q in a.flights ==> Exclusive(StartReserved(k, c, intent, now), a.flights[q])
  {
    forall x | x in s.log
      ensures x.origin != StartOrigin(k) && x.callId != c
    {
      assert Reserved(s, x);
    }
    forall q | q in s.flights
      ensures Exclusive(StartReserved(k, c, intent, now), s.flights[q])
    {
      assert FlightOk(s, s.flights[q]);
    }
  }

  lemma StartExchangeKeeps(s: State, pid: nat, answer: Option<Answer>)
    requires Inv(s)
    ensures Inv(StartExchangeStep(s, pid, answer)) && Grows(s, StartExchangeStep(s, pid, answer))
  {
    hide Inv, Grows;
    GrowsSelf(s);
    if pid in s.flights && s.flights[pid].StartReserved? {
      var f := s.flights[pid];
      var x := Exchange(StartOrigin(f.k), f.callId, 1, answer);
      FlightFact(s, pid);
      var a := DropFlights(s, s.flights - {pid});
      OthersElsewhere(s, pid, x);
      var b := AppendLog(a, x);
      assert x in b.log;
      SwapExclusive(s, pid, StartAnswered(f.k, f.callId, f.intent, f.now, answer));
      var c := AddFlight(b, pid, StartAnswered(f.k, f.callId, f.intent, f.now, answer));
      GrowsTrans(s, a, b);
      GrowsTrans(s, b, c);
      assert c == StartExchangeStep(s, pid, answer);
    }
  }

  /** What a flight owns, no other flight does. */
  lemma OthersElsewhere(s: State, pid: nat, x: Exchange)
    requires Inv(s) && pid in s.flights && Exchanges(s.flights[pid])
    requires x.origin == OriginOf(s.flights[pid]) && (x.callId, x.generation) == SlotOf(s.flights[pid])
    ensures forall q :: q in s.flights - {pid} && Exchanges(s.flights[q]) ==>
      OriginOf(s.flights[q]) != x.origin && SlotOf(s.flights[q]) != (x.callId, x.generation)
  {
    forall q | q in s.flights - {pid} && Exchanges(s.flights[q])
      ensures OriginOf(s.flights[q]) != x.origin && SlotOf(s.flights[q]) != (x.callId, x.generation)
    {
      assert Exclusive(s.flights[q], s.flights[pid]);
    }
  }

  /** A flight may change into one with the same or fewer claims. */
  lemma SwapExclusive(s: State, pid: nat, f: Flight)
    requires Inv(s) && pid in s.flights
    requires Owns(f) ==> Owns(s.flights[pid]) && KeyOf(f) == KeyOf(s.flights[pid])
    requires Exchanges(f) ==> Exchanges(s.flights[pid]) && SlotOf(f) == SlotOf(s.flights[pid])
    ensures forall q :: q in s.flights - {pid} ==> Exclusive(f, s.flights[q])
  {
    forall q | q in s.flights - {pid}
      ensures Exclusive(f, s.flights[q])
    {
      assert Exclusive(s.flights[pid], s.flights[q]);
    }
  }

  lemma StartPersistKeeps(s: State, pid: nat)
    requires Inv(s)
    ensures Inv(StartPersistStep(s, pid)) && Grows(s, StartPersistStep(s, pid))
  {
    hide Inv, Grows;
    GrowsSelf(s);
    if pid in s.flights && s.flights[pid].StartAnswered? {
      var f := s.flights[pid];
      var t := StartPersistStep(s, pid);
      FlightFact(s, pid);
      StartsApart(s, pid);
      var a := DropFlights(s, s.flights - {pid});
      var x := Exchange(StartOrigin(f.k), f.callId, 1, f.answer);
      assert t.calls[f.callId].status == Active ==> Logged(s, x) && StandsOn(t.calls[f.callId], f.callId, x);
      var b := InsertCall(a, f.callId, t.calls[f.callId]);
      GrowsTrans(s, a, b);
      if f.answer.Some? {
        var c := RecordStart(b, f.k, f.answer);
        GrowsTrans(s, b, c);
        assert c == t;
      } else {
        assert b == t;
      }
    }
  }

  /** Two starts never work for the same call. */
  lemma StartsApart(s: State, pid: nat)
    requires Inv(s) && pid in s.flights && StartFlight(s.flights[pid])
    ensures forall q :: q in s.flights - {pid} && StartFlight(s.flights[q]) ==> s.flights[q].callId != s.flights[pid].callId
  {
    forall q | q in s.flights - {pid} && StartFlight(s.flights[q])
      ensures s.flights[q].callId != s.flights[pid].callId
    {
      assert Exclusive(s.flights[pid], s.flights[q]);
    }
  }

  lemma RebindRequestKeeps(s: State, e: Event)
    requires Inv(s) && e.RebindRequest?
    ensures Inv(Step(s, e)) && Grows(s, Step(s, e))
  {
    hide Inv, Grows;
    GrowsSelf(s);
    var t := Step(s, e);
    if t != s {
      var g := s.calls[e.callId].generation + 1;
      var f := RebindReserved(e.k, e.callId, g, e.offer, e.now);
      CallFact(s, e.callId);
      var a := InsertEffect(s, e.k, EffectRow(RebindIntent(e.callId, e.offer, e.generation), None));
      var b := UpdateRow(a, e.callId, t.calls[e.callId]);
      GrowsTrans(s, a, b);
      FreshRebind(s, b, f);
      var c := AddFlight(b, e.pid, f);
      GrowsTrans(s, a, b);
      GrowsTrans(s, b, c);
      assert c == t;
    }
  }

  lemma FreshRebind(s: State, b: State, f: Flight)
    requires Inv(s) && Inv(b) && Grows(s, b) && f.RebindReserved? && f.k !in s.effects && f.k in b.effects
    requires f.callId in s.calls && f.generation == s.calls[f.callId].generation + 1
    requires Rebinding(b, f.k, f.callId, f.generation) && b.flights == s.flights && b.log == s.log
    ensures FlightOk(b, f) && forall q :: q in b.flights ==> Exclusive(f, b.flights[q])
  {
    forall x | x in s.log
      ensures x.origin != RebindOrigin(f.k) && !(x.callId == f.callId && x.generation == f.generation)
    {
      assert Reserved(s, x);
      assert CallReserved(s, f.callId);
    }
    forall q | q in s.flights
      ensures Exclusive(f, s.flights[q])
    {
      assert FlightOk(s, s.flights[q]);
    }
  }

  lemma RebindExchangeKeeps(s: State, pid: nat, answer: Option<Answer>)
    requires Inv(s)
    ensures Inv(RebindExchangeStep(s, pid, answer)) && Grows(s, RebindExchangeStep(s, pid, answer))
  {
    hide Inv, Grows;
    GrowsSelf(s);
    if pid in s.flights && s.flights[pid].RebindReserved? {
      var f := s.flights[pid];
      var t := RebindExchangeStep(s, pid, answer);
      var x := Exchange(RebindOrigin(f.k), f.callId, f.generation, answer);
      FlightFact(s, pid);
      var a := DropFlights(s, s.flights - {pid});
      OthersElsewhere(s, pid, x);
      var b := AppendLog(a, x);
      assert x in b.log;
      SwapExclusive(s, pid, t.flights[pid]);
      var c := AddFlight(b, pid, t.flights[pid]);
      GrowsTrans(s, a, b);
      GrowsTrans(s, b, c);
      assert c == t;
    }
  }

  lemma RebindPersistKeeps(s: State, pid: nat)
    requires Inv(s)
    ensures Inv(RebindPersistStep(s, pid)) && Grows(s, RebindPersistStep(s, pid))
  {
    hide Inv, Grows;
    GrowsSelf(s);
    if pid in s.flights && s.flights[pid].RebindAnswered? {
      var f := s.flights[pid];
      var t := RebindPersistStep(s, pid);
      FlightFact(s, pid);
      var a := DropFlights(s, s.flights - {pid});
      var x := Exchange(RebindOrigin(f.k), f.callId, f.generation, Some(f.granted));
      var b := a;
      if t.calls != s.calls {
        assert Logged(s, x) && StandsOn(t.calls[f.callId], f.callId, x);
        b := UpdateRow(a, f.callId, t.calls[f.callId]);
        GrowsTrans(s, a, b);
      }
      var c := RecordEffect(b, f.k, t.effects[f.k].result);
      GrowsTrans(s, b, c);
      assert c == t;
    }
  }

  lemma HeartbeatKeeps(s: State, e: Event)
    requires Inv(s) && e.Heartbeat?
    ensures Inv(Step(s, e)) && Grows(s, Step(s, e))
  {
    hide Inv, Grows;
    GrowsSelf(s);
    var t := Step(s, e);
    if t != s {
      var a := UpdateRow(s, e.callId, t.calls[e.callId]);
      if e.pid in t.flights {
        var b := AddFlight(a, e.pid, t.flights[e.pid]);
        GrowsTrans(s, a, b);
        assert b == t;
      } else {
        assert a == t;
      }
    }
  }

  /** Writes that follow a flight's read and finish it: sideband loss, a failed rebind, expiry. */
  lemma FinalWriteKeeps(s: State, pid: nat, t: State)
    requires Inv(s) && pid in s.flights && t == s.(calls := t.calls, flights := s.flights - {pid})
    requires t.calls == s.calls || exists c :: c in s.calls && Demoted(s, t, c)
    ensures Inv(t) && Grows(s, t)
  {
    hide Inv, Grows;
    GrowsSelf(s);
    var a := DropFlights(s, s.flights - {pid});
    if t.calls == s.calls {
      assert a == t;
    } else {
      var c :| c in s.calls && Demoted(s, t, c);
      var b := UpdateRow(a, c, t.calls[c]);
      GrowsTrans(s, a, b);
      assert b == t;
    }
  }

  predicate Demoted(s: State, t: State, c: string)
    requires c in s.calls
  {
    && c in t.calls && t.calls == s.calls[c := t.calls[c]] && CallKept(s, t, c) && t.calls[c].status != Active
  }

  lemma FinishRequestKeeps(s: State, e: Event)
    requires Inv(s) && e.FinishRequest?
    ensures Inv(Step(s, e)) && Grows(s, Step(s, e))
  {
    hide Inv, Grows;
    GrowsSelf(s);
    var t := Step(s, e);
    if t != s {
      var a := InsertEffect(s, e.k, t.effects[e.k]);
      if e.pid in t.flights {
        var b := UpdateRow(a, e.callId, t.calls[e.callId]);
        forall q | q in s.flights
          ensures Exclusive(t.flights[e.pid], s.flights[q])
        {
          FlightFact(s, q);
        }
        var c := AddFlight(b, e.pid, t.flights[e.pid]);
        GrowsTrans(s, a, b);
        GrowsTrans(s, b, c);
        assert c == t;
      } else {
        assert a == t;
      }
    }
  }

  lemma FinishRecordKeeps(s: State, pid: nat)
    requires Inv(s)
    ensures Inv(FinishRecordStep(s, pid)) && Grows(s, FinishRecordStep(s, pid))
  {
    hide Inv, Grows;
    GrowsSelf(s);
    if pid in s.flights && s.flights[pid].FinishCommitted? {
      var f := s.flights[pid];
      FlightFact(s, pid);
      var a := DropFlights(s, s.flights - {pid});
      var b := RecordEffect(a, f.k, Some(FinishResult(f.callId, f.target, false)));
      GrowsTrans(s, a, b);
      assert b == FinishRecordStep(s, pid);
    }
  }

  lemma StepKeepsInv(s: State, e: Event)
    requires Inv(s)
    ensures Inv(Step(s, e)) && Grows(s, Step(s, e))
  {
    hide Inv, Grows;
    match e
    case StartRequest(_, _, _, _, _, _) => StartRequestKeeps(s, e);
    case StartExchange(pid, answer) => StartExchangeKeeps(s, pid, answer);
    case StartPersist(pid) => StartPersistKeeps(s, pid);
    case RebindRequest(_, _, _, _, _, _, _) => RebindRequestKeeps(s, e);
    case RebindExchange(pid, answer) => RebindExchangeKeeps(s, pid, answer);
    case RebindPersist(pid) => RebindPersistKeeps(s, pid);
    case RebindMarkFailed(pid) => QuietStepKeeps(s, e);
    case Heartbeat(_, _, _, _, _, _, _) => HeartbeatKeeps(s, e);
    case Touch(_, _, _, _, _, _) => QuietStepKeeps(s, e);
    case SidebandLost(pid) => QuietStepKeeps(s, e);
    case FinishRequest(_, _, _, _, _, _, _) => FinishRequestKeeps(s, e);
    case FinishRecord(pid) => FinishRecordKeeps(s, pid);
    case StatusRead(_, _, _, _, _, _) => QuietStepKeeps(s, e);
    case StatusExpire(pid) => QuietStepKeeps(s, e);
    case Die(pid) => QuietStepKeeps(s, e);
    case Crash => QuietStepKeeps(s, e);
  }

  lemma QuietStepKeeps(s: State, e: Event)
    requires Inv(s)
    requires e.RebindMarkFailed? || e.Touch? || e.SidebandLost? || e.StatusRead? || e.StatusExpire? || e.Die? || e.Crash?
    ensures Inv(Step(s, e)) && Grows(s, Step(s, e))
  {
    hide Inv, Grows;
    GrowsSelf(s);
    var t := Step(s, e);
    match e
    case Touch(_, _, _, _, _, _) =>
      if t != s {
        var a := UpdateRow(s, e.callId, t.calls[e.callId]);
      }
    case StatusRead(_, _, _, _, _, _) =>
      if t != s {
        var a := AddFlight(s, e.pid, t.flights[e.pid]);
      }
    case RebindMarkFailed(pid) =>
      if t != s {
        FlightFact(s, pid);
        assert Demoted(s, t, s.flights[pid].callId);
        FinalWriteKeeps(s, pid, t);
      }
    case StatusExpire(pid) =>
      if t != s {
        FlightFact(s, pid);
        assert Demoted(s, t, s.flights[pid].callId);
        FinalWriteKeeps(s, pid, t);
      }
    case SidebandLost(pid) =>
      if t != s {
        assert t.calls != s.calls ==> Demoted(s, t, s.flights[pid].callId);
        FinalWriteKeeps(s, pid, t);
      }
    case Die(pid) =>
      var a := DropFlights(s, t.flights);
    case Crash =>
      var a := DropFlights(s, t.flights);
  }
}
