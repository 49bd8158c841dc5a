/** What the voice ledger promises over whole runs, and where a promise needs a condition. */
module VoiceTheorems {
  import opened Basics
  import opened VoiceLedger
  import opened VoiceSafety

  lemma {:induction false} RunKeepsInv(s: State, events: seq<Event>)
    requires Inv(s)
    ensures Inv(Run(s, events)) && Grows(s, Run(s, events))
    decreases |events|
  {
    hide Inv, Grows;
    if events == [] {
      GrowsSelf(s);
    } else {
      var t := Step(s, events[0]);
      StepKeepsInv(s, events[0]);
      RunKeepsInv(t, events[1..]);
      GrowsTrans(s, t, Run(t, events[1..]));
    }
  }

  /** At most one SDP exchange per request: over any number of replays, overlapping calls,
      process deaths and crashes, no start and no rebind reaches the provider twice, and every
      exchange was reserved durably beforehand. */
  lemma AtMostOneExchangePerRequest(events: seq<Event>)
    ensures var s := Run(Init, events);
      && (forall i, j :: 0 <= i < j < |s.log| ==> s.log[i].origin != s.log[j].origin)
      && (forall i :: 0 <= i < |s.log| ==> Reserved(s, s.log[i]))
  {
    InitHolds();
    RunKeepsInv(Init, events);
    var s := Run(Init, events);
    assert forall i, j :: 0 <= i < j < |s.log| ==> Apart(s.log[i], s.log[j]);
    assert forall i :: 0 <= i < |s.log| ==> s.log[i] in s.log;
  }

  /** An active call stands on the only exchange ever made for its current generation: both its
      session description and its provider reference are that exchange's answer. */
  lemma ActiveCallStandsOnItsExchange(events: seq<Event>, c: string)
    requires c in Run(Init, events).calls && Run(Init, events).calls[c].status == Active
    ensures var s := Run(Init, events);
      exists i :: 0 <= i < |s.log| && StandsOn(s.calls[c], c, s.log[i])
        && forall j :: 0 <= j < |s.log| && s.log[j].callId == c && s.log[j].generation == s.calls[c].generation ==> j == i
  {
    InitHolds();
    RunKeepsInv(Init, events);
    var s := Run(Init, events);
    assert Coherent(s, c);
    var x :| Logged(s, x) && StandsOn(s.calls[c], c, x);
    var i :| 0 <= i < |s.log| && s.log[i] == x;
    forall j | 0 <= j < |s.log| && s.log[j].callId == c && s.log[j].generation == s.calls[c].generation
      ensures j == i
    {
      assert i < j ==> Apart(s.log[i], s.log[j]);
      assert j < i ==> Apart(s.log[j], s.log[i]);
    }
  }

  /** The generation of a call never decreases and its scope never changes. */
  lemma GenerationNeverDecreases(before: seq<Event>, after: seq<Event>, c: string)
    requires c in Run(Init, before).calls
    ensures var s, t := Run(Init, before), Run(Run(Init, before), after);
      && c in t.calls && s.calls[c].generation <= t.calls[c].generation && s.calls[c].binding == t.calls[c].binding
  {
    InitHolds();
    RunKeepsInv(Init, before);
    RunKeepsInv(Run(Init, before), after);
    assert CallKept(Run(Init, before), Run(Run(Init, before), after), c);
  }

  // Recorded outcomes

  /** While a flight is on its way to record the outcome of a request, none is recorded. */
  ghost predicate Pending(s: State) {
    forall p :: p in s.flights && Owns(s.flights[p]) ==> Open(s, s.flights[p])
  }

  ghost predicate Open(s: State, f: Flight)
    requires Owns(f)
  {
    if StartFlight(f) then f.k in s.requests ==> s.requests[f.k].result.None?
    else f.k in s.effects ==> s.effects[f.k].result.None?
  }

  /** Outcomes, once recorded, stay. */
  ghost predicate OutcomesKept(s: State, t: State) {
    && (forall k :: k in s.requests && s.requests[k].result.Some? ==> k in t.requests && t.requests[k] == s.requests[k])
    && (forall k :: k in s.effects && s.effects[k].result.Some? ==> k in t.effects && t.effects[k] == s.effects[k])
  }

  lemma StepKeepsOutcomes(s: State, e: Event)
    requires Inv(s) && Pending(s)
    ensures Pending(Step(s, e)) && OutcomesKept(s, Step(s, e))
  {
    var t := Step(s, e);
    forall p | p in t.flights && Owns(t.flights[p])
      ensures Open(t, t.flights[p])
    {
      StepKeepsOpen(s, e, p);
    }
    OutcomesKeptByStep(s, e);
  }

  /** The flights whose step writes an outcome. */
  predicate Records(e: Event) {
    e.StartPersist? || e.RebindPersist? || e.FinishRecord?
  }

  lemma OutcomesKeptByStep(s: State, e: Event)
    requires Pending(s)
    ensures OutcomesKept(s, Step(s, e))
  {
    if Records(e) && e.pid in s.flights && Owns(s.flights[e.pid]) {
      assert Open(s, s.flights[e.pid]);
    }
  }

  lemma StepKeepsOpen(s: State, e: Event, p: nat)
    requires Inv(s) && Pending(s) && p in Step(s, e).flights && Owns(Step(s, e).flights[p])
    ensures Open(Step(s, e), Step(s, e).flights[p])
  {
    hide Inv, Exclusive, Open, FlightOk;
    if p in s.flights {
      FlightFact(s, p);
      if Records(e) && e.pid in s.flights {
        FlightFact(s, e.pid);
        ExclusiveFact(s, p, e.pid);
      }
      OpenStays(s, e, p);
    } else {
      OpensOpen(s, e, p);
    }
  }

  lemma OpensOpen(s: State, e: Event, p: nat)
    requires p !in s.flights && p in Step(s, e).flights && Owns(Step(s, e).flights[p])
    ensures Open(Step(s, e), Step(s, e).flights[p])
  {
  }

  lemma ExclusiveFact(s: State, p: nat, q: nat)
    requires Inv(s) && p in s.flights && q in s.flights
    ensures p != q ==> Exclusive(s.flights[p], s.flights[q])
  {
  }

  lemma OpenStays(s: State, e: Event, p: nat)
    requires p in s.flights && p in Step(s, e).flights && Owns(Step(s, e).flights[p])
    requires FlightOk(s, s.flights[p]) && Pending(s)
    requires Records(e) && e.pid in s.flights && e.pid != p ==> Exclusive(s.flights[p], s.flights[e.pid])
    ensures Open(Step(s, e), Step(s, e).flights[p])
  {
    hide Silent, Logged;
    if Records(e) {
      OpenStaysWhenRecording(s, e, p);
    } else if Owns(s.flights[p]) {
      hide Exclusive;
      assert Open(s, s.flights[p]);
    }
  }

  lemma OpenStaysWhenRecording(s: State, e: Event, p: nat)
    requires Records(e) && p in s.flights && p in Step(s, e).flights && Owns(Step(s, e).flights[p])
    requires Pending(s) && (e.pid in s.flights && e.pid != p ==> Exclusive(s.flights[p], s.flights[e.pid]))
    ensures Open(Step(s, e), Step(s, e).flights[p])
  {
    assert s.flights[p] == Step(s, e).flights[p];
    assert Open(s, s.flights[p]);
  }

  /** What a request has once been told is what every later replay of it is told, whatever
      runs in between. */
  lemma {:induction false} OutcomesNeverChange(s: State, events: seq<Event>)
    requires Inv(s) && Pending(s)
    ensures Pending(Run(s, events)) && OutcomesKept(s, Run(s, events))
    decreases |events|
  {
    if events != [] {
      var t := Step(s, events[0]);
      StepKeepsInv(s, events[0]);
      StepKeepsOutcomes(s, events[0]);
      OutcomesNeverChange(t, events[1..]);
    }
  }

  /** And the outcome repeats the answer of the request's one exchange. */
  lemma RecordedOutcomeIsTrue(events: seq<Event>, k: RequestKey)
    requires k in Run(Init, events).requests && Run(Init, events).requests[k].result.Some?
    ensures var s := Run(Init, events);
      Exchange(StartOrigin(k), s.requests[k].callId, 1, s.requests[k].result) in s.log
  {
    InitHolds();
    RunKeepsInv(Init, events);
    assert StartReplyTrue(Run(Init, events), k);
  }

  // Terminal calls

  /** A rebind of the call that may still fail: its failure is written without a guard. */
  predicate CanRevive(f: Flight, c: string) {
    (f.RebindReserved? || f.RebindFailed?) && f.callId == c
  }

  ghost predicate NoRebindInFlight(s: State, c: string) {
    forall p :: p in s.flights ==> !CanRevive(s.flights[p], c)
  }

  ghost predicate StillTerminal(s: State, c: string) {
    c in s.calls && Terminal(s.calls[c].status)
  }

  lemma TerminalStays(s: State, e: Event, c: string)
    requires Inv(s) && StillTerminal(s, c) && NoRebindInFlight(s, c)
    ensures StillTerminal(Step(s, e), c)
  {
    hide Inv;
    if (e.StartPersist? || e.RebindMarkFailed?) && e.pid in s.flights {
      FlightFact(s, e.pid);
      assert !CanRevive(s.flights[e.pid], c);
    }
  }

  lemma NoRebindStays(s: State, e: Event, c: string)
    requires StillTerminal(s, c) && NoRebindInFlight(s, c)
    ensures NoRebindInFlight(Step(s, e), c)
  {
    if e.RebindExchange? && e.pid in s.flights {
      assert !CanRevive(s.flights[e.pid], c);
    }
  }

  lemma TerminalStep(s: State, e: Event, c: string)
    requires Inv(s) && StillTerminal(s, c) && NoRebindInFlight(s, c)
    ensures StillTerminal(Step(s, e), c) && NoRebindInFlight(Step(s, e), c)
  {
    hide Inv, Step, StillTerminal, NoRebindInFlight;
    TerminalStays(s, e, c);
    NoRebindStays(s, e, c);
  }

  lemma {:induction false} TerminalRun(s: State, events: seq<Event>, c: string)
    requires Inv(s) && StillTerminal(s, c) && NoRebindInFlight(s, c)
    ensures StillTerminal(Run(s, events), c)
    decreases |events|
  {
    if events != [] {
      StepKeepsInv(s, events[0]);
      TerminalStep(s, events[0], c);
      TerminalRun(Step(s, events[0]), events[1..], c);
    }
  }

  /** A terminal call never becomes live again exactly when no rebind of it is between its
      reservation and its outcome. The source says a provider failure never resurrects a call;
      that holds under this condition only. */
  lemma NeverLiveAgainIff(s: State, c: string)
    requires Inv(s) && StillTerminal(s, c)
    ensures (forall events :: StillTerminal(Run(s, events), c)) <==> NoRebindInFlight(s, c)
  {
    if NoRebindInFlight(s, c) {
      forall events ensures StillTerminal(Run(s, events), c) {
        TerminalRun(s, events, c);
      }
    } else {
      var p :| p in s.flights && CanRevive(s.flights[p], c);
      var events := FailedRebindRevives(s, p, c);
      assert !StillTerminal(Run(s, events), c);
    }
  }

  lemma FailedRebindRevives(s: State, p: nat, c: string) returns (events: seq<Event>)
    requires c in s.calls && p in s.flights && CanRevive(s.flights[p], c)
    ensures var t := Run(s, events); c in t.calls && t.calls[c].status == Uncertain
    ensures Run(s, events).effects == s.effects && Run(s, events).flights == s.flights - {p}
    ensures CallKept(s, Run(s, events), c)
  {
    var fail := RebindMarkFailed(p);
    if s.flights[p].RebindFailed? {
      events := [fail];
      RunOne(s, fail);
    } else {
      var lose := RebindExchange(p, None);
      events := [lose, fail];
      RunTwo(s, lose, fail);
    }
  }

  lemma NothingRuns(s: State)
    ensures Run(s, []) == s
  {
  }

  lemma RunOne(s: State, a: Event)
    ensures Run(s, [a]) == Step(s, a)
  {
    assert [a][1..] == [];
  }

  lemma RunTwo(s: State, a: Event, b: Event)
    ensures Run(s, [a, b]) == Step(Step(s, a), b)
  {
    assert [a, b][1..] == [b];
    RunOne(Step(s, a), b);
  }

  lemma {:induction false} RunAppend(s: State, a: seq<Event>, b: seq<Event>)
    ensures Run(s, a + b) == Run(Run(s, a), b)
    decreases |a|
  {
    if a == [] {
      assert a + b == b;
    } else {
      assert (a + b)[1..] == a[1..] + b;
      RunAppend(Step(s, a[0]), a[1..], b);
    }
  }

  /** Such a revival is complete: with a fresh request key the call can then be active again. */
  lemma RevivedCallCanBeActive(s: State, p: nat, c: string, q: nat, k: RequestKey, granted: Answer) returns (events: seq<Event>)
    requires Inv(s) && c in s.calls && p in s.flights && CanRevive(s.flights[p], c)
    requires k !in s.effects && k.owner == s.calls[c].owner && k.project == s.calls[c].project && DurableKey(k)
    requires q !in s.flights && q != p
    ensures var t := Run(s, events); c in t.calls && t.calls[c].status == Active && t.calls[c].ref == Some(granted.ref)
  {
    var fail := FailedRebindRevives(s, p, c);
    var rebind := RebindSucceeds(Run(s, fail), c, q, k, granted);
    events := fail + rebind;
    RunAppend(s, fail, rebind);
  }

  lemma RebindSucceeds(s: State, c: string, q: nat, k: RequestKey, granted: Answer) returns (events: seq<Event>)
    requires c in s.calls && !Terminal(s.calls[c].status) && q !in s.flights
    requires k !in s.effects && k.owner == s.calls[c].owner && k.project == s.calls[c].project && DurableKey(k)
    ensures var t := Run(s, events); c in t.calls && t.calls[c].status == Active && t.calls[c].ref == Some(granted.ref)
  {
    var ask := AskRebind(s, c, q, k);
    var t := Step(s, ask);
    events := [ask, RebindExchange(q, Some(granted)), RebindPersist(q)];
    RunThree(s, ask, RebindExchange(q, Some(granted)), RebindPersist(q));
  }

  /** A rebind request within its window, in scope, with a fresh key. */
  lemma AskRebind(s: State, c: string, q: nat, k: RequestKey) returns (ask: Event)
    requires c in s.calls && !Terminal(s.calls[c].status) && q !in s.flights
    requires k !in s.effects && k.owner == s.calls[c].owner && k.project == s.calls[c].project && DurableKey(k)
    ensures var row, t := s.calls[c], Step(s, ask);
      && t == s.(calls := s.calls[c := row.(generation := row.generation + 1, status := Uncertain)],
                 effects := s.effects[k := EffectRow(RebindIntent(c, "v=", None), None)],
                 flights := s.flights[q := RebindReserved(k, c, row.generation + 1, "v=", row.updated)])
  {
    ask := RebindRequest(q, k, c, Scope(None, None), None, "v=", s.calls[c].updated);
    assert VersionAt("v=", 0);
  }

  lemma RunThree(s: State, a: Event, b: Event, c: Event)
    ensures Run(s, [a, b, c]) == Step(Step(Step(s, a), b), c)
  {
    assert [a, b, c][1..] == [b, c];
    RunTwo(Step(s, a), b, c);
  }

  /** The condition is not vacuous: any live call can be revoked while a rebind of it is in
      flight. */
  lemma RevokedDuringRebind(s: State, c: string, q: nat, r: nat, k: RequestKey, m: RequestKey) returns (events: seq<Event>)
    requires c in s.calls && !Terminal(s.calls[c].status) && q !in s.flights && r !in s.flights && q != r
    requires k !in s.effects && m !in s.effects && k != m && DurableKey(k) && DurableKey(m)
    requires k.owner == m.owner == s.calls[c].owner && k.project == m.project == s.calls[c].project
    ensures var t := Run(s, events); StillTerminal(t, c) && t.calls[c].status == Revoked && !NoRebindInFlight(t, c)
  {
    var ask := AskRebind(s, c, q, k);
    var revoke := FinishRequest(r, m, c, Scope(None, None), s.calls[c].startKey, true, 0);
    events := [ask, revoke];
    RunTwo(s, ask, revoke);
    var t := Step(Step(s, ask), revoke);
    assert q in t.flights && CanRevive(t.flights[q], c);
  }

  // Which terminal status a call ends in

  /** A status request that saw the call past its time and is about to write so. */
  predicate CanExpire(f: Flight, c: string) {
    f.StatusExpiring? && f.callId == c
  }

  ghost predicate NoExpiryInFlight(s: State, c: string) {
    forall p :: p in s.flights ==> !CanExpire(s.flights[p], c)
  }

  predicate Has(s: State, c: string, st: Status) {
    c in s.calls && s.calls[c].status == st
  }

  lemma RevokedStays(s: State, e: Event, c: string)
    requires Inv(s) && Has(s, c, Revoked) && NoRebindInFlight(s, c) && NoExpiryInFlight(s, c)
    ensures Has(Step(s, e), c, Revoked)
  {
    hide Inv;
    if (e.StartPersist? || e.RebindMarkFailed? || e.StatusExpire?) && e.pid in s.flights {
      FlightFact(s, e.pid);
      assert !CanRevive(s.flights[e.pid], c) && !CanExpire(s.flights[e.pid], c);
    }
  }

  lemma NoExpiryStays(s: State, e: Event, c: string)
    requires StillTerminal(s, c) && NoExpiryInFlight(s, c)
    ensures NoExpiryInFlight(Step(s, e), c)
  {
  }

  lemma {:induction false} RevokedRun(s: State, events: seq<Event>, c: string)
    requires Inv(s) && Has(s, c, Revoked) && NoRebindInFlight(s, c) && NoExpiryInFlight(s, c)
    ensures Has(Run(s, events), c, Revoked)
    decreases |events|
  {
    if events != [] {
      hide Inv, Step, NoRebindInFlight, NoExpiryInFlight;
      StepKeepsInv(s, events[0]);
      RevokedStays(s, events[0], c);
      NoRebindStays(s, events[0], c);
      NoExpiryStays(s, events[0], c);
      RevokedRun(Step(s, events[0]), events[1..], c);
    }
  }

  lemma ExpiryLands(s: State, p: nat, c: string)
    requires c in s.calls && p in s.flights && CanExpire(s.flights[p], c)
    ensures Has(Run(s, [StatusExpire(p)]), c, Expired) && Run(s, [StatusExpire(p)]).effects == s.effects
    ensures Run(s, [StatusExpire(p)]).flights == s.flights - {p} && CallKept(s, Run(s, [StatusExpire(p)]), c)
  {
    RunOne(s, StatusExpire(p));
  }

  /** A revocation is final exactly when neither a rebind of the call nor the write of its
      expiry is still on its way; neither write has a guard. */
  lemma RevokedIsFinalIff(s: State, c: string)
    requires Inv(s) && Has(s, c, Revoked)
    ensures (forall events :: Has(Run(s, events), c, Revoked)) <==> NoRebindInFlight(s, c) && NoExpiryInFlight(s, c)
  {
    if NoRebindInFlight(s, c) && NoExpiryInFlight(s, c) {
      forall events ensures Has(Run(s, events), c, Revoked) {
        RevokedRun(s, events, c);
      }
    } else if !NoRebindInFlight(s, c) {
      var p :| p in s.flights && CanRevive(s.flights[p], c);
      var events := FailedRebindRevives(s, p, c);
      assert !Has(Run(s, events), c, Revoked);
    } else {
      var p :| p in s.flights && CanExpire(s.flights[p], c);
      ExpiryLands(s, p, c);
      assert !Has(Run(s, [StatusExpire(p)]), c, Revoked);
    }
  }

  /** What a terminal call may still become while no rebind of it is in flight: it can always
      be revoked, it can be stopped unless it is revoked for good, and it expires only if it has
      or a write of its expiry is on its way. */
  ghost predicate MayBecome(s: State, c: string, st: Status)
    requires c in s.calls
  {
    var now := s.calls[c].status;
    match st
    case Revoked => true
    case Stopped => now != Revoked || !NoExpiryInFlight(s, c)
    case Expired => now == Expired || !NoExpiryInFlight(s, c)
    case _ => false
  }

  lemma BecomingShrinks(s: State, e: Event, c: string, st: Status)
    requires Inv(s) && StillTerminal(s, c) && NoRebindInFlight(s, c)
    requires StillTerminal(Step(s, e), c) && MayBecome(Step(s, e), c, st)
    ensures MayBecome(s, c, st)
  {
    hide Inv;
    if NoExpiryInFlight(s, c) {
      NoExpiryStays(s, e, c);
      if (e.StartPersist? || e.StatusExpire?) && e.pid in s.flights {
        FlightFact(s, e.pid);
        assert !CanExpire(s.flights[e.pid], c);
      }
    }
  }

  lemma {:induction false} BecomesOnly(s: State, events: seq<Event>, c: string, st: Status)
    requires Inv(s) && StillTerminal(s, c) && NoRebindInFlight(s, c) && Has(Run(s, events), c, st)
    ensures MayBecome(s, c, st)
    decreases |events|
  {
    if events != [] {
      hide Inv, Step, NoRebindInFlight, MayBecome, StillTerminal;
      StepKeepsInv(s, events[0]);
      TerminalStep(s, events[0], c);
      BecomesOnly(Step(s, events[0]), events[1..], c, st);
      BecomingShrinks(s, events[0], c, st);
    }
  }

  /** A stop or revocation with a fresh key, of a call that is not revoked and not there yet. */
  lemma Finishes(s: State, c: string, q: nat, k: RequestKey, revoke: bool)
    requires c in s.calls && q !in s.flights && s.calls[c].status != Revoked && s.calls[c].status != Target(revoke)
    requires k !in s.effects && k.owner == s.calls[c].owner && k.project == s.calls[c].project && DurableKey(k)
    ensures Has(Run(s, [FinishRequest(q, k, c, Scope(None, None), s.calls[c].startKey, revoke, 0)]), c, Target(revoke))
  {
    RunOne(s, FinishRequest(q, k, c, Scope(None, None), s.calls[c].startKey, revoke, 0));
  }

  lemma Becomes(s: State, c: string, st: Status, q: nat, k: RequestKey) returns (events: seq<Event>)
    requires StillTerminal(s, c) && MayBecome(s, c, st) && q !in s.flights
    requires k !in s.effects && k.owner == s.calls[c].owner && k.project == s.calls[c].project && DurableKey(k)
    ensures Has(Run(s, events), c, st)
  {
    if s.calls[c].status == st {
      events := [];
    } else if s.calls[c].status != Revoked && st != Expired {
      var finish := FinishRequest(q, k, c, Scope(None, None), s.calls[c].startKey, st == Revoked, 0);
      Finishes(s, c, q, k, st == Revoked);
      events := [finish];
    } else {
      var p :| p in s.flights && CanExpire(s.flights[p], c);
      ExpiryLands(s, p, c);
      events := [StatusExpire(p)];
      if st != Expired {
        var t := Run(s, events);
        var finish := FinishRequest(q, k, c, Scope(None, None), t.calls[c].startKey, false, 0);
        Finishes(t, c, q, k, false);
        RunAppend(s, events, [finish]);
        events := events + [finish];
      }
    }
  }

  /** Exactly what a terminal call can become, given a fresh key of its owner to ask with. */
  lemma BecomesIff(s: State, c: string, st: Status, q: nat, k: RequestKey)
    requires Inv(s) && StillTerminal(s, c) && NoRebindInFlight(s, c) && q !in s.flights
    requires k !in s.effects && k.owner == s.calls[c].owner && k.project == s.calls[c].project && DurableKey(k)
    ensures (exists events :: Has(Run(s, events), c, st)) <==> MayBecome(s, c, st)
  {
    if MayBecome(s, c, st) {
      var events := Becomes(s, c, st, q, k);
    }
    if events :| Has(Run(s, events), c, st) {
      BecomesOnly(s, events, c, st);
    }
  }

  // What one request leaves alone of another

  /** None of the steps is one of this request, and the host lives on. */
  predicate OfOthers(events: seq<Event>, pid: nat) {
    forall e :: e in events ==> Other(e, pid)
  }

  predicate Other(e: Event, pid: nat) {
    !e.Crash? && (e.Touch? || e.pid != pid)
  }

  predicate SameFlight(s: State, t: State, pid: nat) {
    (pid in t.flights <==> pid in s.flights) && (pid in s.flights ==> t.flights[pid] == s.flights[pid])
  }

  lemma OtherLeavesFlight(s: State, e: Event, pid: nat)
    requires Other(e, pid)
    ensures SameFlight(s, Step(s, e), pid)
  {
    hide CallIdTaken, CompleteOffer, Signalable, Finishable, InScope, DurableKey;
  }

  lemma {:induction false} OthersLeaveFlight(s: State, events: seq<Event>, pid: nat)
    requires OfOthers(events, pid)
    ensures SameFlight(s, Run(s, events), pid)
    decreases |events|
  {
    hide Step, Other;
    if events != [] {
      OtherLeavesFlight(s, events[0], pid);
      OthersLeaveFlight(Step(s, events[0]), events[1..], pid);
    }
  }

  /** The provider has seen exactly one exchange of this request, and this is it. */
  ghost predicate OnlyExchange(log: seq<Exchange>, x: Exchange) {
    exists i :: 0 <= i < |log| && log[i] == x && forall j :: 0 <= j < |log| && log[j].origin == x.origin ==> j == i
  }

  lemma LoggedIsOnly(s: State, x: Exchange)
    requires Inv(s) && x in s.log
    ensures OnlyExchange(s.log, x)
  {
    assert LogDistinct(s);
    hide Inv;
    var i :| 0 <= i < |s.log| && s.log[i] == x;
    forall j | 0 <= j < |s.log| && s.log[j].origin == x.origin ensures j == i {
      assert i < j ==> Apart(s.log[i], s.log[j]);
      assert j < i ==> Apart(s.log[j], s.log[i]);
    }
  }

  /** The exchange a start or rebind has made is the only one of its request. */
  lemma AnsweredIsOnly(s: State, pid: nat)
    requires Inv(s) && pid in s.flights
    ensures s.flights[pid].StartAnswered? ==>
              var f := s.flights[pid]; OnlyExchange(s.log, Exchange(StartOrigin(f.k), f.callId, 1, f.answer))
    ensures s.flights[pid].RebindAnswered? ==>
              var f := s.flights[pid]; OnlyExchange(s.log, Exchange(RebindOrigin(f.k), f.callId, f.generation, Some(f.granted)))
  {
    FlightFact(s, pid);
    var f := s.flights[pid];
    if f.StartAnswered? {
      LoggedIsOnly(s, Exchange(StartOrigin(f.k), f.callId, 1, f.answer));
    } else if f.RebindAnswered? {
      LoggedIsOnly(s, Exchange(RebindOrigin(f.k), f.callId, f.generation, Some(f.granted)));
    }
  }

  lemma RecordedIsOnly(s: State, k: RequestKey)
    requires Inv(s) && k in s.requests && s.requests[k].result.Some?
    ensures OnlyExchange(s.log, Exchange(StartOrigin(k), s.requests[k].callId, 1, s.requests[k].result))
  {
    assert StartReplyTrue(s, k);
    LoggedIsOnly(s, Exchange(StartOrigin(k), s.requests[k].callId, 1, s.requests[k].result));
  }

  lemma RecordedRebindIsOnly(s: State, k: RequestKey)
    requires Inv(s) && k in s.effects && s.effects[k].result.Some? && s.effects[k].result.value.RebindResult?
    ensures var x := s.effects[k].result.value; OnlyExchange(s.log, Exchange(RebindOrigin(k), x.callId, x.generation, Some(x.answer)))
  {
    assert EffectReplyTrue(s, k);
    var x := s.effects[k].result.value;
    LoggedIsOnly(s, Exchange(RebindOrigin(k), x.callId, x.generation, Some(x.answer)));
  }

  // A run that loses a revocation

  const K := RequestKey("owner", "project", "start")
  const OFFER := "v="
  const INTENT := StartIntent(OFFER, Binding(None, "chat", None, None), None, None)
  const LATE := CALL_TTL_S + 1

  /** The call is active, and a status request past its time is about to write so. */
  lemma ExpiryReady() returns (events: seq<Event>)
    ensures var s := Run(Init, events);
      && Has(s, "call", Active) && s.calls["call"].owner == "owner" && s.calls["call"].project == "project"
      && s.flights == map[1 := StatusExpiring("call", LATE)] && s.effects == map[]
  {
    assert VersionAt(OFFER, 0);
    var start := StartRequest(0, K, INTENT, true, "call", 0);
    var answer := Some(Answer("sdp", "ref"));
    var read := StatusRead(1, "owner", "project", "call", Scope(None, None), LATE);
    var s1 := Step(Init, start);
    assert s1.flights == map[0 := StartReserved(K, "call", INTENT, 0)];
    var s2 := Step(s1, StartExchange(0, answer));
    assert s2.flights == map[0 := StartAnswered(K, "call", INTENT, 0, answer)];
    var s3 := Step(s2, StartPersist(0));
    assert s3.flights == map[] && Has(s3, "call", Active) && s3.calls["call"].expires == CALL_TTL_S;
    assert Step(s3, read).flights == map[1 := StatusExpiring("call", LATE)];
    events := [start, StartExchange(0, answer), StartPersist(0)] + [read];
    RunThree(Init, start, StartExchange(0, answer), StartPersist(0));
    RunAppend(Init, [start, StartExchange(0, answer), StartPersist(0)], [read]);
    RunOne(s3, read);
  }

  /** A revoked call is written expired by the status request that had read it before, and can
      then be stopped: the revocation is lost, with no rebind anywhere. */
  lemma RevocationLost() returns (before: seq<Event>, after: seq<Event>)
    ensures Has(Run(Init, before), "call", Revoked) && NoRebindInFlight(Run(Init, before), "call")
    ensures Has(Run(Run(Init, before), after), "call", Stopped)
  {
    hide Step;
    var ready := ExpiryReady();
    var s := Run(Init, ready);
    var revoke := FinishRequest(2, RequestKey("owner", "project", "revoke"), "call", Scope(None, None), s.calls["call"].startKey, true, 0);
    var t := RevokesBeside(s, revoke);
    RunAppend(Init, ready, [revoke]);
    before := ready + [revoke];
    InitHolds();
    after := Becomes(t, "call", Stopped, 3, RequestKey("owner", "project", "stop"));
  }

  lemma RevokesBeside(s: State, revoke: Event) returns (t: State)
    requires Has(s, "call", Active) && s.calls["call"].owner == "owner" && s.calls["call"].project == "project"
    requires s.flights == map[1 := StatusExpiring("call", LATE)] && s.effects == map[]
    requires revoke == FinishRequest(2, RequestKey("owner", "project", "revoke"), "call", Scope(None, None),
                                     s.calls["call"].startKey, true, 0)
    ensures t == Run(s, [revoke]) && Has(t, "call", Revoked) && NoRebindInFlight(t, "call") && !NoExpiryInFlight(t, "call")
    ensures 3 !in t.flights && RequestKey("owner", "project", "stop") !in t.effects
    ensures t.calls["call"].owner == "owner" && t.calls["call"].project == "project"
  {
    RunOne(s, revoke);
    t := Step(s, revoke);
    assert 1 in t.flights && CanExpire(t.flights[1], "call");
  }
}
