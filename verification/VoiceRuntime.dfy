/** The requests of browser/voice.py as they run on the tables: one method per transaction
    or exchange, each proved to be the corresponding step of the ledger. */
module VoiceRuntime {
  import opened Basics
  import opened VoiceLedger
  import opened VoiceSafety
  import opened VoiceTheorems

  datatype StartOutcome =
    | StartRefused                              // invalid request or no microphone opt-in
    | StartConflict                             // the key belongs to another intent
    | StartReplay(callId: string, answer: Answer)
    | StartUnfinished(callId: string)           // reserved earlier; only its status may be read
    | StartProceeds

  datatype EffectOutcome =
    | EffectRefused
    | EffectConflict
    | EffectReplay(result: EffectResult)
    | EffectOutstanding                         // reserved earlier without a recorded outcome
    | EffectProceeds

  datatype StatusOutcome = StatusRefused | StatusUncertain(callId: string) | StatusIs(status: Status, generation: nat)

  datatype StartReply = NotStarted(why: StartOutcome) | Started(status: Status, answer: Option<Answer>)

  datatype RebindReply = NotReserved(why: EffectOutcome) | ExchangeFailed | Rebound(took: bool, granted: Answer)

  // What each answer means, said of the tables alone

  /** _check_scope turns the row away: another project, or another space or conversation than
      the one the request names. */
  predicate Elsewhere(row: CallRow, project: string, scope: Scope) {
    || row.project != project
    || (scope.space.Some? && scope.space.value != "" && row.binding.space != scope.space)
    || (scope.conversation.Some? && scope.conversation.value != "" && row.binding.conversation != scope.conversation.value)
  }

  /** No session description of 1 to 32768 characters that somewhere says "v=". */
  predicate Incomplete(offer: string) {
    |offer| == 0 || |offer| > 32768 || forall i :: 0 <= i < |offer| - 1 ==> offer[i] != 'v' || offer[i + 1] != '='
  }

  lemma IncompleteIff(offer: string)
    ensures Incomplete(offer) <==> !CompleteOffer(offer)
  {
    forall i | 0 <= i < |offer| - 1 && offer[i] == 'v' && offer[i + 1] == '='
      ensures VersionAt(offer, i)
    {
    }
  }

  /** The call is there, of this owner, and within the scope the request names. */
  predicate InReach(s: State, owner: string, project: string, callId: string, scope: Scope) {
    callId in s.calls && s.calls[callId].owner == owner && !Elsewhere(s.calls[callId], project, scope)
  }

  /** The call is live, and of the generation the signal names if it names one. */
  predicate Live(row: CallRow, generation: Option<nat>) {
    && (generation.None? || row.generation == generation.value)
    && (row.status == Starting || row.status == Active || row.status == Uncertain)
  }

  /** The answer of voice_start up to its reservation. */
  predicate AnswersStart(s: State, k: RequestKey, intent: StartIntent, optIn: bool, r: StartOutcome) {
    var refused := |k.key| == 0 || |k.key| > 200 || !optIn || Incomplete(intent.offer);
    && (r.StartRefused? <==> refused)
    && (r.StartProceeds? <==> !refused && k !in s.requests)
    && (r.StartConflict? <==> !refused && k in s.requests && s.requests[k].intent != intent)
    && (r.StartReplay? <==> !refused && k in s.requests && s.requests[k].intent == intent && s.requests[k].result.Some?)
    && (r.StartReplay? ==> s.requests[k] == RequestRow(intent, r.callId, Some(r.answer)))
    && (r.StartUnfinished? ==> s.requests[k] == RequestRow(intent, r.callId, None))
  }

  /** The answer to a key of the effect table: by its record if it has one. */
  predicate AnswersEffect(s: State, k: RequestKey, intent: EffectIntent, refused: bool, r: EffectOutcome) {
    && (r.EffectRefused? <==> refused)
    && (r.EffectConflict? <==> !refused && k in s.effects && s.effects[k].intent != intent)
    && (r.EffectOutstanding? <==> !refused && k in s.effects && s.effects[k] == EffectRow(intent, None))
    && (!refused && k in s.effects && s.effects[k].intent == intent && s.effects[k].result.Some? ==>
          r == EffectReplay(s.effects[k].result.value))
    && (!refused && k in s.effects ==> !r.EffectProceeds?)
  }

  /** The answer to a rebind up to its reservation: only a new key is turned away for its
      generation, its call's end, or the window. */
  predicate AnswersRebind(s: State, k: RequestKey, callId: string, scope: Scope, generation: Option<nat>, offer: string, now: int,
                          r: EffectOutcome)
  {
    var refused := !InReach(s, k.owner, k.project, callId, scope) || Incomplete(offer) || |k.key| == 0 || |k.key| > 200
      || (k !in s.effects && (!Live(s.calls[callId], generation) || now - s.calls[callId].updated > 300));
    && AnswersEffect(s, k, RebindIntent(callId, offer, generation), refused, r)
    && (r.EffectProceeds? <==> !refused && k !in s.effects)
  }

  /** The answer to a stop or revoke up to its commit: an end already reached is replayed. */
  predicate AnswersFinish(s: State, k: RequestKey, callId: string, scope: Scope, origin: string, revoke: bool, r: EffectOutcome) {
    var refused := !InReach(s, k.owner, k.project, callId, scope) || s.calls[callId].startKey != origin || |k.key| == 0 || |k.key| > 200;
    var ended := !refused && (s.calls[callId].status == Revoked || (!revoke && s.calls[callId].status == Stopped));
    && AnswersEffect(s, k, FinishIntent(callId, if revoke then Revoked else Stopped, origin), refused, r)
    && (!refused && k !in s.effects && ended ==> r == EffectReplay(FinishResult(callId, s.calls[callId].status, true)))
    && (r.EffectProceeds? <==> !refused && k !in s.effects && !ended)
  }

  class VoiceRuntime {
    var calls: map<string, CallRow>             // voice_calls
    var requests: map<RequestKey, RequestRow>   // voice_requests
    var effects: map<RequestKey, EffectRow>     // voice_effect_requests
    var flights: map<nat, Flight>               // requests in progress, in memory
    ghost var log: seq<Exchange>                // what the provider has seen

    ghost function Ledger(): State
      reads this
    {
      State(calls, requests, effects, flights, log)
    }

    constructor ()
      ensures Ledger() == Init
    {
      calls, requests, effects, flights, log := map[], map[], map[], map[], [];
    }

    /** _start up to its first commit. A known key is only ever observed. */
    method StartRequest(pid: nat, k: RequestKey, intent: StartIntent, optIn: bool, callId: string, now: int)
      returns (r: StartOutcome)
      requires pid !in flights && !CallIdTaken(Ledger(), callId)
      modifies this
      ensures Ledger() == Step(old(Ledger()), Event.StartRequest(pid, k, intent, optIn, callId, now))
      ensures AnswersStart(old(Ledger()), k, intent, optIn, r)
      ensures !r.StartProceeds? ==> Ledger() == old(Ledger())
      ensures r.StartProceeds? ==>
                && requests == old(requests)[k := RequestRow(intent, callId, None)]
                && flights == old(flights)[pid := StartReserved(k, callId, intent, now)]
                && calls == old(calls) && effects == old(effects) && log == old(log)
    {
      IncompleteIff(intent.offer);
      if !DurableKey(k) || !optIn || !CompleteOffer(intent.offer) {
        return StartRefused;
      }
      if k in requests {
        var row := requests[k];
        if row.intent != intent {
          return StartConflict;
        }
        if row.result.Some? {
          return StartReplay(row.callId, row.result.value);
        }
        return StartUnfinished(row.callId);
      }
      requests := requests[k := RequestRow(intent, callId, None)];
      flights := flights[pid := StartReserved(k, callId, intent, now)];
      r := StartProceeds;
    }

    /** The exchange, with no transaction open. None is a provider failure. */
    method StartExchange(pid: nat, answer: Option<Answer>)
      requires pid in flights && flights[pid].StartReserved?
      modifies this
      ensures Ledger() == Step(old(Ledger()), Event.StartExchange(pid, answer))
      ensures var f := old(flights)[pid];
        && flights == old(flights)[pid := StartAnswered(f.k, f.callId, f.intent, f.now, answer)]
        && log == old(log) + [Exchange(StartOrigin(f.k), f.callId, 1, answer)]
        && calls == old(calls) && requests == old(requests) && effects == old(effects)
    {
      var f := flights[pid];
      log := log + [Exchange(StartOrigin(f.k), f.callId, 1, answer)];
      flights := flights[pid := StartAnswered(f.k, f.callId, f.intent, f.now, answer)];
    }

    /** The transaction that persists the outcome, and the reply it gives. */
    method StartPersist(pid: nat) returns (status: Status, answer: Option<Answer>)
      requires pid in flights && flights[pid].StartAnswered? && flights[pid].k in requests
      modifies this
      ensures Ledger() == Step(old(Ledger()), Event.StartPersist(pid))
      ensures answer == old(flights)[pid].answer && (status == Active <==> answer.Some?) && (status == Uncertain <==> answer.None?)
      ensures var f := old(flights)[pid];
        && calls == old(calls)[f.callId := CallRow(f.k.owner, f.k.project, f.intent.binding, 1, status, f.k.key,
                                                   if answer.Some? then Some(answer.value.sdp) else None,
                                                   if answer.Some? then Some(answer.value.ref) else None, f.now, f.now + 3600)]
        && requests == (if answer.Some? then old(requests)[f.k := old(requests)[f.k].(result := answer)] else old(requests))
        && effects == old(effects) && flights == old(flights) - {pid} && log == old(log)
    {
      var f := flights[pid];
      answer := f.answer;
      if answer.None? {
        status := Uncertain;
        calls := calls[f.callId := CallRow(f.k.owner, f.k.project, f.intent.binding, 1, Uncertain, f.k.key, None, None,
                                           f.now, f.now + CALL_TTL_S)];
      } else {
        status := Active;
        requests := requests[f.k := requests[f.k].(result := answer)];
        calls := calls[f.callId := CallRow(f.k.owner, f.k.project, f.intent.binding, 1, Active, f.k.key,
                                           Some(answer.value.sdp), Some(answer.value.ref), f.now, f.now + CALL_TTL_S)];
      }
      flights := flights - {pid};
    }

    /** _reconcile_start and _status: a reserved start whose call cannot be found stays
        uncertain; reading never reaches the provider. A live call past its time is reported
        expired, and the flight will write so. */
    method StatusRead(pid: nat, owner: string, project: string, callId: string, key: Option<string>, scope: Scope, now: int)
      returns (r: StatusOutcome)
      requires pid !in flights
      modifies this
      ensures Ledger() == Step(old(Ledger()), Event.StatusRead(pid, owner, project, callId, scope, now))
      ensures var found := callId in calls && calls[callId].owner == owner;
        var reserved := key.Some? && RequestKey(owner, project, key.value) in requests;
        && (r.StatusUncertain? <==> !found && reserved)
        && (r.StatusUncertain? ==> r.callId == requests[RequestKey(owner, project, key.value)].callId)
        && (r.StatusIs? <==> found && !Elsewhere(calls[callId], project, scope))
      ensures r.StatusIs? ==>
                var late := Live(calls[callId], None) && calls[callId].expires < now;
                && r == StatusIs(if late then Expired else calls[callId].status, calls[callId].generation)
                && flights == if late then old(flights)[pid := StatusExpiring(callId, now)] else old(flights)
      ensures !r.StatusIs? ==> flights == old(flights)
      ensures calls == old(calls) && requests == old(requests) && effects == old(effects) && log == old(log)
    {
      if callId !in calls || calls[callId].owner != owner {
        if key.Some? && RequestKey(owner, project, key.value) in requests {
          return StatusUncertain(requests[RequestKey(owner, project, key.value)].callId);
        }
        return StatusRefused;
      }
      var row := calls[callId];
      if !InScope(row, project, scope) {
        return StatusRefused;
      }
      if !Terminal(row.status) && now > row.expires {
        flights := flights[pid := StatusExpiring(callId, now)];
        return StatusIs(Expired, row.generation);
      }
      r := StatusIs(row.status, row.generation);
    }

    method StatusExpire(pid: nat)
      requires pid in flights && flights[pid].StatusExpiring?
      modifies this
      ensures Ledger() == Step(old(Ledger()), Event.StatusExpire(pid))
      ensures var f := old(flights)[pid];
        && calls == (if f.callId in old(calls)
                     then old(calls)[f.callId := old(calls)[f.callId].(status := Expired, updated := f.now)] else old(calls))
        && requests == old(requests) && effects == old(effects) && flights == old(flights) - {pid} && log == old(log)
    {
      var f := flights[pid];
      if f.callId in calls {
        calls := calls[f.callId := calls[f.callId].(status := Expired, updated := f.now)];
      }
      flights := flights - {pid};
    }

    /** A rebind signal up to its first commit. A replay is answered from the record before the
        generation and the state of the call are looked at. */
    method RebindRequest(pid: nat, k: RequestKey, callId: string, scope: Scope, generation: Option<nat>, offer: string, now: int)
      returns (r: EffectOutcome)
      requires pid !in flights
      modifies this
      ensures Ledger() == Step(old(Ledger()), Event.RebindRequest(pid, k, callId, scope, generation, offer, now))
      ensures AnswersRebind(old(Ledger()), k, callId, scope, generation, offer, now, r)
      ensures !r.EffectProceeds? ==> Ledger() == old(Ledger())
      ensures r.EffectProceeds? ==>
                var next := old(calls)[callId].generation + 1;
                && calls == old(calls)[callId := old(calls)[callId].(generation := next, status := Uncertain, updated := now)]
                && effects == old(effects)[k := EffectRow(RebindIntent(callId, offer, generation), None)]
                && flights == old(flights)[pid := RebindReserved(k, callId, next, offer, now)]
                && requests == old(requests) && log == old(log)
    {
      IncompleteIff(offer);
      if callId !in calls || calls[callId].owner != k.owner || !InScope(calls[callId], k.project, scope) || !CompleteOffer(offer) {
        return EffectRefused;
      }
      var row, intent := calls[callId], RebindIntent(callId, offer, generation);
      if k in effects {
        r := Recorded(k, intent);
        return;
      }
      if generation.Some? && generation.value != row.generation {
        return EffectRefused;
      }
      if Terminal(row.status) || now - row.updated > REBIND_WINDOW_S || !DurableKey(k) {
        return EffectRefused;
      }
      effects := effects[k := EffectRow(intent, None)];
      calls := calls[callId := row.(generation := row.generation + 1, status := Uncertain, updated := now)];
      flights := flights[pid := RebindReserved(k, callId, row.generation + 1, offer, now)];
      r := EffectProceeds;
    }

    /** The replay half of _reserve_effect. */
    function Recorded(k: RequestKey, intent: EffectIntent): (r: EffectOutcome)
      requires k in effects
      reads this
      ensures AnswersEffect(Ledger(), k, intent, |k.key| == 0 || |k.key| > 200, r)
      ensures !r.EffectProceeds?
    {
      if !DurableKey(k) then EffectRefused
      else if effects[k].intent != intent then EffectConflict
      else if effects[k].result.Some? then EffectReplay(effects[k].result.value)
      else EffectOutstanding
    }

    method RebindExchange(pid: nat, answer: Option<Answer>)
      requires pid in flights && flights[pid].RebindReserved?
      modifies this
      ensures Ledger() == Step(old(Ledger()), Event.RebindExchange(pid, answer))
      ensures var f := old(flights)[pid];
        && flights == old(flights)[pid := if answer.Some? then RebindAnswered(f.k, f.callId, f.generation, f.now, answer.value)
                                          else RebindFailed(f.callId, f.generation, f.now)]
        && log == old(log) + [Exchange(RebindOrigin(f.k), f.callId, f.generation, answer)]
        && calls == old(calls) && requests == old(requests) && effects == old(effects)
    {
      var f := flights[pid];
      log := log + [Exchange(RebindOrigin(f.k), f.callId, f.generation, answer)];
      if answer.Some? {
        flights := flights[pid := RebindAnswered(f.k, f.callId, f.generation, f.now, answer.value)];
      } else {
        flights := flights[pid := RebindFailed(f.callId, f.generation, f.now)];
      }
    }

    /** The guarded update after a successful exchange: it takes effect on the reserved
        generation only, and the outcome is recorded either way. */
    method RebindPersist(pid: nat) returns (rebound: bool)
      requires pid in flights && flights[pid].RebindAnswered? && flights[pid].k in effects
      modifies this
      ensures Ledger() == Step(old(Ledger()), Event.RebindPersist(pid))
      ensures var f := old(flights)[pid];
        rebound <==> f.callId in old(calls) && old(calls)[f.callId].generation == f.generation && old(calls)[f.callId].status == Uncertain
      ensures var f := old(flights)[pid];
        && calls == (if rebound
                     then old(calls)[f.callId := old(calls)[f.callId].(status := Active, sdp := Some(f.granted.sdp),
                            ref := Some(f.granted.ref), updated := f.now, expires := f.now + 3600)]
                     else old(calls))
        && effects == old(effects)[f.k := old(effects)[f.k].(result := Some(RebindResult(f.callId, f.generation, rebound, f.granted)))]
        && requests == old(requests) && flights == old(flights) - {pid} && log == old(log)
    {
      var f := flights[pid];
      rebound := f.callId in calls && calls[f.callId].generation == f.generation && calls[f.callId].status == Uncertain;
      if rebound {
        calls := calls[f.callId := calls[f.callId].(status := Active, sdp := Some(f.granted.sdp), ref := Some(f.granted.ref),
                                                    updated := f.now, expires := f.now + CALL_TTL_S)];
      }
      effects := effects[f.k := effects[f.k].(result := Some(RebindResult(f.callId, f.generation, rebound, f.granted)))];
      flights := flights - {pid};
    }

    /** The update after a failed exchange, whatever has become of the call meanwhile. */
    method RebindMarkFailed(pid: nat)
      requires pid in flights && flights[pid].RebindFailed?
      modifies this
      ensures Ledger() == Step(old(Ledger()), Event.RebindMarkFailed(pid))
      ensures var f := old(flights)[pid];
        && calls == (if f.callId in old(calls)
                     then old(calls)[f.callId := old(calls)[f.callId].(status := Uncertain, updated := f.now)] else old(calls))
        && requests == old(requests) && effects == old(effects) && flights == old(flights) - {pid} && log == old(log)
    {
      var f := flights[pid];
      if f.callId in calls {
        calls := calls[f.callId := calls[f.callId].(status := Uncertain, updated := f.now)];
      }
      flights := flights - {pid};
    }

    /** A heartbeat renews the call; if it is active its sideband is read next. */
    method Heartbeat(pid: nat, owner: string, project: string, callId: string, scope: Scope, generation: Option<nat>, now: int)
      returns (ok: bool)
      requires pid !in flights
      modifies this
      ensures Ledger() == Step(old(Ledger()), Event.Heartbeat(pid, owner, project, callId, scope, generation, now))
      ensures ok <==> InReach(old(Ledger()), owner, project, callId, scope) && Live(old(calls)[callId], generation)
      ensures ok ==>
                var row := old(calls)[callId];
                && calls == old(calls)[callId := row.(updated := now, expires := now + 3600)]
                && flights == (if row.status == Active && row.ref.Some? && row.ref.value != ""
                               then old(flights)[pid := SidebandReading(callId, row.generation)] else old(flights))
      ensures !ok ==> calls == old(calls) && flights == old(flights)
      ensures requests == old(requests) && effects == old(effects) && log == old(log)
    {
      ok := Accepts(owner, project, callId, scope, generation);
      if ok {
        var row := calls[callId];
        calls := calls[callId := row.(updated := now, expires := now + CALL_TTL_S)];
        if row.status == Active && row.ref.Some? && row.ref.value != "" {
          flights := flights[pid := SidebandReading(callId, row.generation)];
        }
      }
    }

    /** The checks every signal shares. */
    predicate Accepts(owner: string, project: string, callId: string, scope: Scope, generation: Option<nat>)
      reads this
      ensures Accepts(owner, project, callId, scope, generation) <==> Signalable(Ledger(), owner, project, callId, scope, generation)
    {
      && callId in calls
      && var row := calls[callId];
      && row.owner == owner && InScope(row, project, scope)
      && !(generation.Some? && generation.value != row.generation)
      && !Terminal(row.status)
    }

    method Touch(owner: string, project: string, callId: string, scope: Scope, generation: Option<nat>, now: int) returns (ok: bool)
      modifies this
      ensures Ledger() == Step(old(Ledger()), Event.Touch(owner, project, callId, scope, generation, now))
      ensures ok <==> InReach(old(Ledger()), owner, project, callId, scope) && Live(old(calls)[callId], generation)
      ensures calls == if ok then old(calls)[callId := old(calls)[callId].(updated := now)] else old(calls)
      ensures requests == old(requests) && effects == old(effects) && flights == old(flights) && log == old(log)
    {
      ok := Accepts(owner, project, callId, scope, generation);
      if ok {
        calls := calls[callId := calls[callId].(updated := now)];
      }
    }

    method SidebandLost(pid: nat)
      requires pid in flights && flights[pid].SidebandReading?
      modifies this
      ensures Ledger() == Step(old(Ledger()), Event.SidebandLost(pid))
      ensures var f := old(flights)[pid];
        var fits := f.callId in old(calls) && old(calls)[f.callId].generation == f.generation && old(calls)[f.callId].status == Active;
        && calls == (if fits then old(calls)[f.callId := old(calls)[f.callId].(status := Uncertain)] else old(calls))
        && requests == old(requests) && effects == old(effects) && flights == old(flights) - {pid} && log == old(log)
    {
      var f := flights[pid];
      if f.callId in calls && calls[f.callId].generation == f.generation && calls[f.callId].status == Active {
        calls := calls[f.callId := calls[f.callId].(status := Uncertain)];
      }
      flights := flights - {pid};
    }

    /** stop and revoke up to their commit: the call is terminal before the provider is told. */
    method FinishRequest(pid: nat, k: RequestKey, callId: string, scope: Scope, origin: string, revoke: bool, now: int)
      returns (r: EffectOutcome)
      requires pid !in flights
      modifies this
      ensures Ledger() == Step(old(Ledger()), Event.FinishRequest(pid, k, callId, scope, origin, revoke, now))
      ensures AnswersFinish(old(Ledger()), k, callId, scope, origin, revoke, r)
      ensures var target := if revoke then Revoked else Stopped;
        var row := FinishIntent(callId, target, origin);
        if r.EffectProceeds? then
          && calls == old(calls)[callId := old(calls)[callId].(status := target, updated := now)]
          && effects == old(effects)[k := EffectRow(row, None)]
          && flights == old(flights)[pid := FinishCommitted(k, callId, target)]
        else
          && calls == old(calls) && flights == old(flights)
          && effects == if r.EffectReplay? && k !in old(effects) then old(effects)[k := EffectRow(row, Some(r.result))] else old(effects)
      ensures requests == old(requests) && log == old(log)
    {
      if callId !in calls || calls[callId].owner != k.owner || !InScope(calls[callId], k.project, scope)
         || calls[callId].startKey != origin || !DurableKey(k) {
        return EffectRefused;
      }
      var row, target := calls[callId], Target(revoke);
      var intent := FinishIntent(callId, target, origin);
      if k in effects {
        r := Recorded(k, intent);
        return;
      }
      if row.status == target || row.status == Revoked {
        var result := FinishResult(callId, row.status, true);
        effects := effects[k := EffectRow(intent, Some(result))];
        return EffectReplay(result);
      }
      effects := effects[k := EffectRow(intent, None)];
      calls := calls[callId := row.(status := target, updated := now)];
      flights := flights[pid := FinishCommitted(k, callId, target)];
      r := EffectProceeds;
    }

    method FinishRecord(pid: nat)
      requires pid in flights && flights[pid].FinishCommitted? && flights[pid].k in effects
      modifies this
      ensures Ledger() == Step(old(Ledger()), Event.FinishRecord(pid))
      ensures var f := old(flights)[pid];
        && effects == old(effects)[f.k := old(effects)[f.k].(result := Some(FinishResult(f.callId, f.target, false)))]
        && calls == old(calls) && requests == old(requests) && flights == old(flights) - {pid} && log == old(log)
    {
      var f := flights[pid];
      effects := effects[f.k := effects[f.k].(result := Some(FinishResult(f.callId, f.target, false)))];
      flights := flights - {pid};
    }

    /** A crash of the host drops everything in memory and nothing else. */
    method Crash()
      modifies this
      ensures Ledger() == Step(old(Ledger()), Event.Crash) && Ledger() == old(Ledger()).(flights := map[])
    {
      flights := map[];
    }

    method Die(pid: nat)
      modifies this`flights
      ensures Ledger() == Step(old(Ledger()), Event.Die(pid)) && flights == old(flights) - {pid}
    {
      flights := flights - {pid};
    }

    // What other requests do between two steps of one

    method PlayStart(e: Event)
      requires Inv(Ledger()) && (e.StartRequest? || e.StartExchange? || e.StartPersist? || e.StatusRead? || e.StatusExpire?)
      modifies this
      ensures Ledger() == Step(old(Ledger()), e)
    {
      if e.StartRequest? {
        if e.pid !in flights && !CallIdTaken(State(calls, requests, map[], map[], []), e.callId) {
          var r := StartRequest(e.pid, e.k, e.intent, e.optIn, e.callId, e.now);
        }
      } else if e.StatusRead? {
        if e.pid !in flights {
          var r := StatusRead(e.pid, e.owner, e.project, e.callId, None, e.scope, e.now);
        }
      } else if e.pid in flights {
        if e.StartExchange? && flights[e.pid].StartReserved? {
          StartExchange(e.pid, e.answer);
        } else if e.StartPersist? && flights[e.pid].StartAnswered? {
          FlightFact(Ledger(), e.pid);
          var status, answer := StartPersist(e.pid);
        } else if e.StatusExpire? && flights[e.pid].StatusExpiring? {
          StatusExpire(e.pid);
        }
      }
    }

    method PlayRebind(e: Event)
      requires Inv(Ledger()) && (e.RebindRequest? || e.RebindExchange? || e.RebindPersist? || e.RebindMarkFailed?)
      modifies this
      ensures Ledger() == Step(old(Ledger()), e)
    {
      if e.RebindRequest? {
        if e.pid !in flights {
          var r := RebindRequest(e.pid, e.k, e.callId, e.scope, e.generation, e.offer, e.now);
        }
      } else if e.pid in flights {
        if e.RebindExchange? && flights[e.pid].RebindReserved? {
          RebindExchange(e.pid, e.answer);
        } else if e.RebindPersist? && flights[e.pid].RebindAnswered? {
          FlightFact(Ledger(), e.pid);
          var took := RebindPersist(e.pid);
        } else if e.RebindMarkFailed? && flights[e.pid].RebindFailed? {
          RebindMarkFailed(e.pid);
        }
      }
    }

    method PlaySignal(e: Event)
      requires Inv(Ledger())
      requires e.Heartbeat? || e.Touch? || e.SidebandLost? || e.FinishRequest? || e.FinishRecord? || e.Die? || e.Crash?
      modifies this
      ensures Ledger() == Step(old(Ledger()), e)
    {
      if e.Crash? {
        Crash();
      } else if e.Die? {
        Die(e.pid);
      } else if e.Touch? {
        var ok := Touch(e.owner, e.project, e.callId, e.scope, e.generation, e.now);
      } else if e.Heartbeat? {
        if e.pid !in flights {
          var ok := Heartbeat(e.pid, e.owner, e.project, e.callId, e.scope, e.generation, e.now);
        }
      } else if e.FinishRequest? {
        if e.pid !in flights {
          var r := FinishRequest(e.pid, e.k, e.callId, e.scope, e.origin, e.revoke, e.now);
        }
      } else if e.pid in flights {
        if e.SidebandLost? && flights[e.pid].SidebandReading? {
          SidebandLost(e.pid);
        } else if e.FinishRecord? && flights[e.pid].FinishCommitted? {
          FlightFact(Ledger(), e.pid);
          FinishRecord(e.pid);
        }
      }
    }

    method Meanwhile(events: seq<Event>)
      requires Inv(Ledger())
      modifies this
      ensures Ledger() == Run(old(Ledger()), events) && Inv(Ledger())
    {
      hide Inv, Step;
      assert events[..0] == [];
      NothingRuns(Ledger());
      for i := 0 to |events|
        invariant Ledger() == Run(old(Ledger()), events[..i]) && Inv(Ledger())
      {
        var e := events[i];
        ghost var s := Ledger();
        StepKeepsInv(s, e);
        if e.StartRequest? || e.StartExchange? || e.StartPersist? || e.StatusRead? || e.StatusExpire? {
          PlayStart(e);
        } else if e.RebindRequest? || e.RebindExchange? || e.RebindPersist? || e.RebindMarkFailed? {
          PlayRebind(e);
        } else {
          PlaySignal(e);
        }
        assert events[..i + 1] == events[..i] + [e];
        RunAppend(old(Ledger()), events[..i], [e]);
        RunOne(s, e);
      }
      assert events[..|events|] == events;
    }

    // Whole requests, with whatever other requests do between their steps

    /** One step of a request, added to the run that led to it. */
    lemma Stepped(start: State, before: seq<Event>, s: State, e: Event) returns (run: seq<Event>)
      requires s == Run(start, before) && Inv(s) && Ledger() == Step(s, e)
      ensures run == before + [e] && Ledger() == Run(start, run) && Inv(Ledger())
    {
      hide Step, Inv;
      run := before + [e];
      StepKeepsInv(s, e);
      RunAppend(start, before, [e]);
      RunOne(s, e);
    }

    method Await(pid: nat, events: seq<Event>, ghost start: State, ghost before: seq<Event>) returns (ghost run: seq<Event>)
      requires Inv(Ledger()) && Ledger() == Run(start, before) && OfOthers(events, pid)
      modifies this
      ensures run == before + events && Ledger() == Run(start, run) && Inv(Ledger()) && SameFlight(old(Ledger()), Ledger(), pid)
    {
      hide Step, Inv, OfOthers;
      run := before + events;
      RunAppend(start, before, events);
      OthersLeaveFlight(Ledger(), events, pid);
      Meanwhile(events);
    }

    /** voice_start. Whether it starts the call now or answers from its record, the answer it
        gives is that of the one exchange the provider has ever seen for its key; in every other
        case it has not reached the provider at all. */
    method Start(pid: nat, k: RequestKey, intent: StartIntent, optIn: bool, callId: string, now: int, answer: Option<Answer>,
                 others: nat -> seq<Event>)
      returns (r: StartReply, ghost run: seq<Event>)
      requires Inv(Ledger()) && pid !in flights && !CallIdTaken(Ledger(), callId) && forall n :: OfOthers(others(n), pid)
      modifies this
      ensures Ledger() == Run(old(Ledger()), run) && Inv(Ledger())
      ensures r.Started? ==> r.answer == answer && OnlyExchange(log, Exchange(StartOrigin(k), callId, 1, answer))
      ensures r.Started? && answer.Some? ==> r.status == Active && k in requests && requests[k].result == answer
      ensures r.Started? && answer.None? ==> r.status == Uncertain
      ensures r.NotStarted? ==> Ledger() == old(Ledger()) && AnswersStart(Ledger(), k, intent, optIn, r.why)
      ensures r.NotStarted? <==> !AnswersStart(old(Ledger()), k, intent, optIn, StartProceeds)
      ensures r.NotStarted? && r.why.StartReplay? ==> OnlyExchange(log, Exchange(StartOrigin(k), r.why.callId, 1, Some(r.why.answer)))
    {
      hide Step, Run, Inv, OfOthers, OnlyExchange;
      ghost var start := Ledger();
      NothingRuns(start);
      var why := StartRequest(pid, k, intent, optIn, callId, now);
      if !why.StartProceeds? {
        if why.StartReplay? {
          RecordedIsOnly(Ledger(), k);
        }
        return NotStarted(why), [];
      }
      run := Stepped(start, [], start, Event.StartRequest(pid, k, intent, optIn, callId, now));
      run := Await(pid, others(0), start, run);
      ghost var s := Ledger();
      StartExchange(pid, answer);
      run := Stepped(start, run, s, Event.StartExchange(pid, answer));
      run := Await(pid, others(1), start, run);
      s := Ledger();
      AnsweredIsOnly(s, pid);
      assert k in requests by { FlightFact(s, pid); }
      var status, given := StartPersist(pid);
      run := Stepped(start, run, s, Event.StartPersist(pid));
      r := Started(status, given);
    }

    /** A rebind signal. An answer it brings back is that of the only exchange ever made for its
        key, and takes effect only if the call then is at the generation it had reserved. */
    method Rebind(pid: nat, k: RequestKey, callId: string, scope: Scope, generation: Option<nat>, offer: string, now: int,
                  answer: Option<Answer>, others: nat -> seq<Event>)
      returns (r: RebindReply, ghost run: seq<Event>)
      requires Inv(Ledger()) && pid !in flights && forall n :: OfOthers(others(n), pid)
      modifies this
      ensures Ledger() == Run(old(Ledger()), run) && Inv(Ledger())
      ensures r.NotReserved? ==> Ledger() == old(Ledger()) && AnswersRebind(Ledger(), k, callId, scope, generation, offer, now, r.why)
      ensures r.NotReserved? <==> !AnswersRebind(old(Ledger()), k, callId, scope, generation, offer, now, EffectProceeds)
      ensures r.NotReserved? && r.why.EffectReplay? && r.why.result.RebindResult? ==>
                var x := r.why.result; OnlyExchange(log, Exchange(RebindOrigin(k), x.callId, x.generation, Some(x.answer)))
      ensures r.Rebound? ==>
                && callId in old(calls) && answer == Some(r.granted)
                && OnlyExchange(log, Exchange(RebindOrigin(k), callId, old(calls)[callId].generation + 1, answer))
                && k in effects && effects[k].result == Some(RebindResult(callId, old(calls)[callId].generation + 1, r.took, r.granted))
      ensures r.Rebound? && r.took ==>
                && callId in calls && calls[callId].status == Active && calls[callId].ref == Some(r.granted.ref)
                && calls[callId].generation == old(calls)[callId].generation + 1
      ensures r.ExchangeFailed? ==> answer.None?
    {
      hide Step, Run, Inv, OfOthers, OnlyExchange;
      ghost var start := Ledger();
      NothingRuns(start);
      var why := RebindRequest(pid, k, callId, scope, generation, offer, now);
      if !why.EffectProceeds? {
        if why.EffectReplay? && why.result.RebindResult? {
          RecordedRebindIsOnly(Ledger(), k);
        }
        return NotReserved(why), [];
      }
      run := Stepped(start, [], start, Event.RebindRequest(pid, k, callId, scope, generation, offer, now));
      r, run := RebindAfterReservation(pid, answer, others, start, run);
    }

    /** The rest of a rebind, once its reservation is committed. */
    method RebindAfterReservation(pid: nat, answer: Option<Answer>, others: nat -> seq<Event>, ghost start: State, ghost before: seq<Event>)
      returns (r: RebindReply, ghost run: seq<Event>)
      requires Inv(Ledger()) && Ledger() == Run(start, before) && pid in flights && flights[pid].RebindReserved?
      requires forall n :: OfOthers(others(n), pid)
      modifies this
      ensures Ledger() == Run(start, run) && Inv(Ledger())
      ensures !r.NotReserved? && (r.ExchangeFailed? <==> answer.None?)
      ensures var f := old(flights)[pid];
        r.Rebound? ==>
          && answer == Some(r.granted) && OnlyExchange(log, Exchange(RebindOrigin(f.k), f.callId, f.generation, answer))
          && f.k in effects && effects[f.k].result == Some(RebindResult(f.callId, f.generation, r.took, r.granted))
          && (r.took ==> f.callId in calls && calls[f.callId].status == Active && calls[f.callId].ref == Some(r.granted.ref)
                         && calls[f.callId].generation == f.generation)
    {
      hide Step, Run, Inv, OfOthers, OnlyExchange;
      run := Await(pid, others(0), start, before);
      ghost var s := Ledger();
      RebindExchange(pid, answer);
      run := Stepped(start, run, s, Event.RebindExchange(pid, answer));
      run := Await(pid, others(1), start, run);
      s := Ledger();
      if answer.None? {
        RebindMarkFailed(pid);
        run := Stepped(start, run, s, Event.RebindMarkFailed(pid));
        return ExchangeFailed, run;
      }
      AnsweredIsOnly(s, pid);
      assert flights[pid].k in effects by { FlightFact(s, pid); }
      var took := RebindPersist(pid);
      run := Stepped(start, run, s, Event.RebindPersist(pid));
      r := Rebound(took, answer.value);
    }
  }
}
