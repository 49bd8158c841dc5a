/** The voice call ledger of browser/voice.py as a state machine.

    One step is one database transaction, one provider exchange, or the death of a process.
    What a request has read and holds between its transactions is a flight; flights live in
    memory and a crash drops them. The provider's side of the wire is the log of exchanges. */
module VoiceLedger {
  import opened Basics

  const CALL_TTL_S := 3600
  const REBIND_WINDOW_S := 300
  const MAX_SDP_CHARS := 32_768

  datatype Status = Starting | Active | Uncertain | Stopped | Revoked | Expired

  predicate Terminal(st: Status) {
    st == Stopped || st == Revoked || st == Expired
  }

  /** The server-owned scope of a call. */
  datatype Binding = Binding(space: Option<string>, conversation: string, run: Option<string>, workItem: Option<string>)

  /** What the fingerprint of a voice_start digests. */
  datatype StartIntent = StartIntent(offer: string, binding: Binding, model: Option<string>, effort: Option<string>)

  /** What the fingerprint of a reserved effect digests. */
  datatype EffectIntent =
    | RebindIntent(callId: string, offer: string, generation: Option<nat>)
    | FinishIntent(callId: string, target: Status, origin: string)

  /** What the provider returns from a successful SDP exchange. */
  datatype Answer = Answer(sdp: string, ref: string)

  /** A row of voice_calls. */
  datatype CallRow = CallRow(owner: string, project: string, binding: Binding, generation: nat, status: Status,
                             startKey: string, sdp: Option<string>, ref: Option<string>, updated: int, expires: int)

  /** A row of voice_requests; the result of a start that persisted an answer. */
  datatype RequestRow = RequestRow(intent: StartIntent, callId: string, result: Option<Answer>)

  datatype EffectResult =
    | RebindResult(callId: string, generation: nat, rebound: bool, answer: Answer)
    | FinishResult(callId: string, status: Status, replay: bool)

  /** A row of voice_effect_requests. */
  datatype EffectRow = EffectRow(intent: EffectIntent, result: Option<EffectResult>)

  /** What a request holds in memory between two of its transactions. */
  datatype Flight =
    | StartReserved(k: RequestKey, callId: string, intent: StartIntent, now: int)
    | StartAnswered(k: RequestKey, callId: string, intent: StartIntent, now: int, answer: Option<Answer>)
    | RebindReserved(k: RequestKey, callId: string, generation: nat, offer: string, now: int)
    | RebindAnswered(k: RequestKey, callId: string, generation: nat, now: int, granted: Answer)
    | RebindFailed(callId: string, generation: nat, now: int)
    | FinishCommitted(k: RequestKey, callId: string, target: Status)
    | StatusExpiring(callId: string, now: int)
    | SidebandReading(callId: string, generation: nat)

  datatype Origin = StartOrigin(k: RequestKey) | RebindOrigin(k: RequestKey)

  /** One SDP exchange the provider has seen, with its answer if it gave one. */
  datatype Exchange = Exchange(origin: Origin, callId: string, generation: nat, answer: Option<Answer>)

  datatype State = State(calls: map<string, CallRow>, requests: map<RequestKey, RequestRow>,
                         effects: map<RequestKey, EffectRow>, flights: map<nat, Flight>, log: seq<Exchange>)

  const Init := State(map[], map[], map[], map[], [])

  /** The request scope checked against a row; None means the envelope did not supply it. */
  datatype Scope = Scope(space: Option<string>, conversation: Option<string>)

  predicate InScope(row: CallRow, project: string, scope: Scope) {
    && row.project == project
    && (scope.space.None? || scope.space.value == "" || scope.space == row.binding.space)
    && (scope.conversation.None? || scope.conversation.value == "" || scope.conversation.value == row.binding.conversation)
  }

  predicate CompleteOffer(offer: string) {
    1 <= |offer| <= MAX_SDP_CHARS && exists i :: 0 <= i < |offer| - 1 && VersionAt(offer, i)
  }

  predicate VersionAt(offer: string, i: nat)
    requires i + 1 < |offer|
  {
    offer[i] == 'v' && offer[i + 1] == '='
  }

  predicate DurableKey(k: RequestKey) {
    1 <= |k.key| <= 200
  }

  /** Every atomic step of the ledger, its callers and its surroundings. */
  datatype Event =
    | StartRequest(pid: nat, k: RequestKey, intent: StartIntent, optIn: bool, callId: string, now: int)
    | StartExchange(pid: nat, answer: Option<Answer>)
    | StartPersist(pid: nat)
    | RebindRequest(pid: nat, k: RequestKey, callId: string, scope: Scope, generation: Option<nat>, offer: string, now: int)
    | RebindExchange(pid: nat, answer: Option<Answer>)
    | RebindPersist(pid: nat)
    | RebindMarkFailed(pid: nat)
    | Heartbeat(pid: nat, owner: string, project: string, callId: string, scope: Scope, generation: Option<nat>, now: int)
    | Touch(owner: string, project: string, callId: string, scope: Scope, generation: Option<nat>, now: int)
    | SidebandLost(pid: nat)
    | FinishRequest(pid: nat, k: RequestKey, callId: string, scope: Scope, origin: string, revoke: bool, now: int)
    | FinishRecord(pid: nat)
    | StatusRead(pid: nat, owner: string, project: string, callId: string, scope: Scope, now: int)
    | StatusExpire(pid: nat)
    | Die(pid: nat)
    | Crash

  predicate CallIdTaken(s: State, callId: string) {
    callId in s.calls || exists k :: k in s.requests && s.requests[k].callId == callId
  }

  /** The transaction that reserves a start: nothing if the key is known, else a reservation
      committed before any exchange. */
  function StartRequestStep(s: State, e: Event): State
    requires e.StartRequest?
  {
    if !DurableKey(e.k) || !e.optIn || !CompleteOffer(e.intent.offer) || e.k in s.requests
       || e.pid in s.flights || CallIdTaken(s, e.callId)
    then s
    else s.(requests := s.requests[e.k := RequestRow(e.intent, e.callId, None)],
            flights := s.flights[e.pid := StartReserved(e.k, e.callId, e.intent, e.now)])
  }

  function StartExchangeStep(s: State, pid: nat, answer: Option<Answer>): State {
    if pid !in s.flights || !s.flights[pid].StartReserved? then s
    else
      var f := s.flights[pid];
      s.(flights := s.flights[pid := StartAnswered(f.k, f.callId, f.intent, f.now, answer)],
         log := s.log + [Exchange(StartOrigin(f.k), f.callId, 1, answer)])
  }

  /** The transaction that persists the outcome of a start. */
  function StartPersistStep(s: State, pid: nat): State {
    if pid !in s.flights || !s.flights[pid].StartAnswered? then s
    else
      var f := s.flights[pid];
      var row := CallRow(f.k.owner, f.k.project, f.intent.binding, 1,
                         if f.answer.Some? then Active else Uncertain, f.k.key,
                         if f.answer.Some? then Some(f.answer.value.sdp) else None,
                         if f.answer.Some? then Some(f.answer.value.ref) else None, f.now, f.now + CALL_TTL_S);
      s.(calls := s.calls[f.callId := row],
         requests := if f.answer.Some? && f.k in s.requests
                     then s.requests[f.k := s.requests[f.k].(result := f.answer)] else s.requests,
         flights := s.flights - {pid})
  }

  /** A call that a signal of its owner, in its scope and at its generation, may still touch. */
  predicate Signalable(s: State, owner: string, project: string, callId: string, scope: Scope, generation: Option<nat>) {
    && callId in s.calls && s.calls[callId].owner == owner && InScope(s.calls[callId], project, scope)
    && (generation.None? || generation.value == s.calls[callId].generation)
    && !Terminal(s.calls[callId].status)
  }

  /** The transaction that reserves a rebind: the generation moves on and the call is
      uncertain until its one exchange has been persisted. */
  function RebindRequestStep(s: State, e: Event): State
    requires e.RebindRequest?
  {
    if !CompleteOffer(e.offer) || e.k in s.effects || e.pid in s.flights
       || !Signalable(s, e.k.owner, e.k.project, e.callId, e.scope, e.generation)
       || e.now - s.calls[e.callId].updated > REBIND_WINDOW_S || !DurableKey(e.k)
    then s
    else
      var row := s.calls[e.callId];
      var next := row.generation + 1;
      s.(calls := s.calls[e.callId := row.(generation := next, status := Uncertain, updated := e.now)],
         effects := s.effects[e.k := EffectRow(RebindIntent(e.callId, e.offer, e.generation), None)],
         flights := s.flights[e.pid := RebindReserved(e.k, e.callId, next, e.offer, e.now)])
  }

  function RebindExchangeStep(s: State, pid: nat, answer: Option<Answer>): State {
    if pid !in s.flights || !s.flights[pid].RebindReserved? then s
    else
      var f := s.flights[pid];
      s.(flights := s.flights[pid := if answer.Some? then RebindAnswered(f.k, f.callId, f.generation, f.now, answer.value)
                                     else RebindFailed(f.callId, f.generation, f.now)],
         log := s.log + [Exchange(RebindOrigin(f.k), f.callId, f.generation, answer)])
  }

  /** The guarded write of a rebind's answer; its outcome is recorded whether or not it took. */
  function RebindPersistStep(s: State, pid: nat): State {
    if pid !in s.flights || !s.flights[pid].RebindAnswered? then s
    else
      var f := s.flights[pid];
      var fits := f.callId in s.calls && s.calls[f.callId].generation == f.generation
                  && s.calls[f.callId].status == Uncertain;
      var result := RebindResult(f.callId, f.generation, fits, f.granted);
      s.(calls := if fits then s.calls[f.callId := s.calls[f.callId].(status := Active, sdp := Some(f.granted.sdp),
                    ref := Some(f.granted.ref), updated := f.now, expires := f.now + CALL_TTL_S)]
                  else s.calls,
         effects := if f.k in s.effects then s.effects[f.k := s.effects[f.k].(result := Some(result))] else s.effects,
         flights := s.flights - {pid})
  }

  /** The write after a failed exchange. It has no guard on generation or status. */
  function RebindMarkFailedStep(s: State, pid: nat): State {
    if pid !in s.flights || !s.flights[pid].RebindFailed? then s
    else
      var f := s.flights[pid];
      s.(calls := if f.callId in s.calls
                  then s.calls[f.callId := s.calls[f.callId].(status := Uncertain, updated := f.now)] else s.calls,
         flights := s.flights - {pid})
  }

  function HeartbeatStep(s: State, e: Event): State
    requires e.Heartbeat?
  {
    if e.pid in s.flights || !Signalable(s, e.owner, e.project, e.callId, e.scope, e.generation) then s
    else
      var row := s.calls[e.callId];
      s.(calls := s.calls[e.callId := row.(updated := e.now, expires := e.now + CALL_TTL_S)],
         flights := if row.status == Active && row.ref.Some? && row.ref.value != ""
                    then s.flights[e.pid := SidebandReading(e.callId, row.generation)] else s.flights)
  }

  /** ice-candidate and transcript signals refresh the row. */
  function TouchStep(s: State, e: Event): State
    requires e.Touch?
  {
    if !Signalable(s, e.owner, e.project, e.callId, e.scope, e.generation) then s
    else s.(calls := s.calls[e.callId := s.calls[e.callId].(updated := e.now)])
  }

  /** Losing the sideband makes the generation it was read for uncertain. */
  function SidebandLostStep(s: State, pid: nat): State {
    if pid !in s.flights || !s.flights[pid].SidebandReading? then s
    else
      var f := s.flights[pid];
      var fits := f.callId in s.calls && s.calls[f.callId].generation == f.generation && s.calls[f.callId].status == Active;
      s.(calls := if fits then s.calls[f.callId := s.calls[f.callId].(status := Uncertain)] else s.calls,
         flights := s.flights - {pid})
  }

  function Target(revoke: bool): Status {
    if revoke then Revoked else Stopped
  }

  predicate Finishable(s: State, k: RequestKey, callId: string, scope: Scope, origin: string) {
    && callId in s.calls && s.calls[callId].owner == k.owner && InScope(s.calls[callId], k.project, scope)
    && s.calls[callId].startKey == origin && DurableKey(k)
  }

  /** The transaction of stop and revoke. */
  function FinishRequestStep(s: State, e: Event): State
    requires e.FinishRequest?
  {
    if !Finishable(s, e.k, e.callId, e.scope, e.origin) || e.k in s.effects || e.pid in s.flights then s
    else
      var row, target := s.calls[e.callId], Target(e.revoke);
      var intent := FinishIntent(e.callId, target, e.origin);
      if row.status == target || row.status == Revoked then
        s.(effects := s.effects[e.k := EffectRow(intent, Some(FinishResult(e.callId, row.status, true)))])
      else
        s.(calls := s.calls[e.callId := row.(status := target, updated := e.now)],
           effects := s.effects[e.k := EffectRow(intent, None)],
           flights := s.flights[e.pid := FinishCommitted(e.k, e.callId, target)])
  }

  function FinishRecordStep(s: State, pid: nat): State {
    if pid !in s.flights || !s.flights[pid].FinishCommitted? then s
    else
      var f := s.flights[pid];
      s.(effects := if f.k in s.effects
                    then s.effects[f.k := s.effects[f.k].(result := Some(FinishResult(f.callId, f.target, false)))]
                    else s.effects,
         flights := s.flights - {pid})
  }

  /** voice_status reads first and decides whether to write that the call expired. */
  function StatusReadStep(s: State, e: Event): State
    requires e.StatusRead?
  {
    if e.pid in s.flights || e.callId !in s.calls || s.calls[e.callId].owner != e.owner
       || !InScope(s.calls[e.callId], e.project, e.scope)
       || Terminal(s.calls[e.callId].status) || e.now <= s.calls[e.callId].expires
    then s
    else s.(flights := s.flights[e.pid := StatusExpiring(e.callId, e.now)])
  }

  /** The write that follows. It has no guard on what happened in between. */
  function StatusExpireStep(s: State, pid: nat): State {
    if pid !in s.flights || !s.flights[pid].StatusExpiring? then s
    else
      var f := s.flights[pid];
      s.(calls := if f.callId in s.calls
                  then s.calls[f.callId := s.calls[f.callId].(status := Expired, updated := f.now)] else s.calls,
         flights := s.flights - {pid})
  }

  function Step(s: State, e: Event): State {
    match e
    case StartRequest(_, _, _, _, _, _) => StartRequestStep(s, e)
    case StartExchange(pid, answer) => StartExchangeStep(s, pid, answer)
    case StartPersist(pid) => StartPersistStep(s, pid)
    case RebindRequest(_, _, _, _, _, _, _) => RebindRequestStep(s, e)
    case RebindExchange(pid, answer) => RebindExchangeStep(s, pid, answer)
    case RebindPersist(pid) => RebindPersistStep(s, pid)
    case RebindMarkFailed(pid) => RebindMarkFailedStep(s, pid)
    case Heartbeat(_, _, _, _, _, _, _) => HeartbeatStep(s, e)
    case Touch(_, _, _, _, _, _) => TouchStep(s, e)
    case SidebandLost(pid) => SidebandLostStep(s, pid)
    case FinishRequest(_, _, _, _, _, _, _) => FinishRequestStep(s, e)
    case FinishRecord(pid) => FinishRecordStep(s, pid)
    case StatusRead(_, _, _, _, _, _) => StatusReadStep(s, e)
    case StatusExpire(pid) => StatusExpireStep(s, pid)
    case Die(pid) => s.(flights := s.flights - {pid})
    case Crash => s.(flights := map[])
  }

  /** Any number of steps in any order. */
  function Run(s: State, events: seq<Event>): State
    decreases |events|
  {
    if events == [] then s else Run(Step(s, events[0]), events[1..])
  }
}
