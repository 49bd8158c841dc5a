/** omaRecordDeliveryReceipt of edge_extension/service-worker.js: a delivery receipt is sent
    to the relay at most once per job, whatever overlaps and however often the worker restarts.

    A step is a stretch between two awaits. The busy set and the calls in progress are memory;
    the attempted keys are in chrome.storage.local. */
module ReceiptEmission {
  import opened Basics

  /** Where a call is waiting. */
  datatype Flight =
    | Reading(job: string)               // for the attempted key
    | Witnessing(job: string)            // for a committed message to prove the receipt
    | Storing(job: string, v2: bool)     // for the attempted key to be written
    | Emitting(job: string, v2: bool)    // about to POST: the write was acknowledged
    | Leaving(job: string)               // only the finally block is left

  datatype Emission = Emission(job: string, v2: bool)

  datatype State = State(busy: set<string>, attempted: map<string, bool>, flights: map<nat, Flight>, log: seq<Emission>)

  const Init := State({}, map[], map[], [])

  datatype Event =
    | Enter(pid: nat, job: string)
    | ReadKey(pid: nat)
    | Witness(pid: nat, proof: bool)     // proof: the receipt can be promoted to V2
    | WriteKey(pid: nat)
    | Emit(pid: nat)
    | Throw(pid: nat)                    // any await of the call rejects
    | Leave(pid: nat)
    | LateWrite(job: string, v2: bool)   // a write of a worker that died reaches storage
    | Restart

  function With(s: State, pid: nat, f: Flight): State {
    s.(flights := s.flights[pid := f])
  }

  function Step(s: State, e: Event): State {
    match e
    case Enter(pid, job) =>
      if pid in s.flights || job in s.busy then s
      else With(s.(busy := s.busy + {job}), pid, Reading(job))
    case ReadKey(pid) =>
      if pid !in s.flights || !s.flights[pid].Reading? then s
      else if s.flights[pid].job in s.attempted then With(s, pid, Leaving(s.flights[pid].job))
      else With(s, pid, Witnessing(s.flights[pid].job))
    case Witness(pid, proof) =>
      if pid !in s.flights || !s.flights[pid].Witnessing? then s
      else With(s, pid, Storing(s.flights[pid].job, proof))
    case WriteKey(pid) =>
      if pid !in s.flights || !s.flights[pid].Storing? then s
      else
        var f := s.flights[pid];
        With(s.(attempted := s.attempted[f.job := f.v2]), pid, Emitting(f.job, f.v2))
    case Emit(pid) =>
      if pid !in s.flights || !s.flights[pid].Emitting? then s
      else
        var f := s.flights[pid];
        With(s.(log := s.log + [Emission(f.job, f.v2)]), pid, Leaving(f.job))
    case Throw(pid) =>
      if pid !in s.flights then s else With(s, pid, Leaving(s.flights[pid].job))
    case Leave(pid) =>
      if pid !in s.flights || !s.flights[pid].Leaving? then s
      else s.(busy := s.busy - {s.flights[pid].job}, flights := s.flights - {pid})
    case LateWrite(job, v2) => s.(attempted := s.attempted[job := v2])
    case Restart => s.(busy := {}, flights := map[])
  }

  function Run(s: State, events: seq<Event>): State
    decreases |events|
  {
    if events == [] then s else Run(Step(s, events[0]), events[1..])
  }

  // ---------------------------------------------------------------- the invariant

  predicate LogOnce(log: seq<Emission>) {
    forall i, j :: 0 <= i < j < |log| ==> log[i].job != log[j].job
  }

  predicate Logged(log: seq<Emission>, job: string) {
    exists i :: 0 <= i < |log| && log[i].job == job
  }

  /** A call that may still emit has the attempted key to itself. */
  predicate MayEmit(f: Flight) {
    f.Witnessing? || f.Storing? || f.Emitting?
  }

  predicate FlightSound(s: State, pid: nat)
    requires pid in s.flights
  {
    var f := s.flights[pid];
    f.job in s.busy && (MayEmit(f) ==> !Logged(s.log, f.job)) && (f.Emitting? ==> f.job in s.attempted)
  }

  predicate Alone(s: State, p: nat, q: nat)
    requires p in s.flights && q in s.flights
  {
    p != q ==> s.flights[p].job != s.flights[q].job
  }

  predicate Inv(s: State) {
    && LogOnce(s.log)
    && (forall i :: 0 <= i < |s.log| ==> s.log[i].job in s.attempted)
    && (forall pid :: pid in s.flights ==> FlightSound(s, pid))
    && (forall p, q :: p in s.flights && q in s.flights ==> Alone(s, p, q))
  }

  lemma Appended(log: seq<Emission>, e: Emission)
    requires LogOnce(log) && !Logged(log, e.job)
    ensures LogOnce(log + [e])
    ensures forall job :: Logged(log + [e], job) <==> Logged(log, job) || job == e.job
  {
    forall job ensures Logged(log + [e], job) <==> Logged(log, job) || job == e.job {
      if job == e.job {
        assert (log + [e])[|log|].job == job;
      } else if Logged(log, job) {
        var i :| 0 <= i < |log| && log[i].job == job;
        assert (log + [e])[i].job == job;
      }
    }
  }

  lemma EmitKeeps(s: State, pid: nat)
    requires Inv(s)
    ensures Inv(Step(s, Emit(pid)))
  {
    if pid in s.flights && s.flights[pid].Emitting? {
      assert FlightSound(s, pid);
      var f, t := s.flights[pid], Step(s, Emit(pid));
      Appended(s.log, Emission(f.job, f.v2));
      forall q | q in t.flights ensures FlightSound(t, q) {
        assert FlightSound(s, q) && Alone(s, q, pid);
      }
      forall p, q | p in t.flights && q in t.flights ensures Alone(t, p, q) {
        assert Alone(s, p, q);
      }
    }
  }

  lemma StepKeepsInv(s: State, e: Event)
    requires Inv(s)
    ensures Inv(Step(s, e))
  {
    var t := Step(s, e);
    if e.Emit? {
      EmitKeeps(s, e.pid);
    } else {
      forall q | q in t.flights ensures FlightSound(t, q) {
        if q in s.flights {
          assert FlightSound(s, q);
          if !e.LateWrite? && !e.Restart? && e.pid in s.flights {
            assert FlightSound(s, e.pid) && Alone(s, q, e.pid);
          }
        }
      }
      forall p, q | p in t.flights && q in t.flights ensures Alone(t, p, q) {
        if p in s.flights && q in s.flights {
          assert Alone(s, p, q);
        } else if p in s.flights {
          assert FlightSound(s, p);
        } else if q in s.flights {
          assert FlightSound(s, q);
        }
      }
    }
  }

  lemma {:induction false} RunKeepsInv(s: State, events: seq<Event>)
    requires Inv(s)
    ensures Inv(Run(s, events))
    decreases |events|
  {
    if events != [] {
      StepKeepsInv(s, events[0]);
      RunKeepsInv(Step(s, events[0]), events[1..]);
    }
  }

  /** Over every run, with any overlap, failure and restart, a job has at most one emission,
      and so it is never sent as V2 and again as legacy. */
  lemma AtMostOneEmissionPerJob(events: seq<Event>, i: nat, j: nat)
    requires i < |Run(Init, events).log| && j < |Run(Init, events).log|
    requires Run(Init, events).log[i].job == Run(Init, events).log[j].job
    ensures i == j
  {
    RunKeepsInv(Init, events);
  }

  /** Once an attempt is on record no later call adds an emission, except the one that made the
      record itself and has yet to POST. */
  lemma {:induction false} AttemptedIsFinal(s: State, events: seq<Event>, job: string)
    requires Inv(s) && job in s.attempted
    requires forall pid :: pid in s.flights && s.flights[pid].job == job ==> !MayEmit(s.flights[pid])
    ensures Logged(Run(s, events).log, job) <==> Logged(s.log, job)
    decreases |events|
  {
    if events != [] {
      var t := Step(s, events[0]);
      StepKeepsInv(s, events[0]);
      if t.log != s.log {
        var f := s.flights[events[0].pid];
        assert FlightSound(s, events[0].pid);
        Appended(s.log, Emission(f.job, f.v2));
      }
      AttemptedIsFinal(t, events[1..], job);
    }
  }

  // ---------------------------------------------------------------- one call among others

  /** None of the steps is one of this call, and the worker lives on. */
  predicate OfOthers(events: seq<Event>, pid: nat) {
    forall e :: e in events ==> !e.Restart? && (e.LateWrite? || e.pid != pid)
  }

  predicate SameFlight(s: State, t: State, pid: nat) {
    (pid in t.flights <==> pid in s.flights) && (pid in s.flights ==> t.flights[pid] == s.flights[pid])
  }

  lemma {:induction false} OthersLeaveFlight(s: State, events: seq<Event>, pid: nat)
    requires OfOthers(events, pid)
    ensures SameFlight(s, Run(s, events), pid)
    decreases |events|
  {
    if events != [] {
      OthersLeaveFlight(Step(s, events[0]), events[1..], pid);
    }
  }

  lemma {:induction false} RunAppend(s: State, a: seq<Event>, b: seq<Event>)
    ensures Run(s, a + b) == Run(Run(s, a), b)
    decreases |a|
  {
    hide Step;
    if a == [] {
      assert a + b == b;
    } else {
      assert (a + b)[0] == a[0] && (a + b)[1..] == a[1..] + b;
      RunAppend(Step(s, a[0]), a[1..], b);
    }
  }

  lemma RunOne(s: State, e: Event)
    ensures Run(s, [e]) == Step(s, e)
  {
    assert [e][1..] == [];
  }

  lemma NothingRuns(s: State)
    ensures Run(s, []) == s
  {
  }

  /** Exactly one emission of this job is on its way or behind us, and it is this one. */
  ghost predicate OnlyEmission(log: seq<Emission>, x: Emission) {
    exists i :: 0 <= i < |log| && log[i] == x && forall j :: 0 <= j < |log| && log[j].job == x.job ==> j == i
  }

  lemma LastIsOnly(s: State)
    requires Inv(s) && s.log != []
    ensures OnlyEmission(s.log, s.log[|s.log| - 1])
  {
    var last := |s.log| - 1;
    forall j | 0 <= j < |s.log| && s.log[j].job == s.log[last].job ensures j == last {
      assert LogOnce(s.log);
    }
  }

  // ---------------------------------------------------------------- the service worker

  datatype Entered = Unconfirmed | Uncertain | Proceeds

  datatype Answer = NoReceipt | MayBeSent | Posted(v2: bool) | Threw

  /** What a call that is left alone answers and leaves behind, whichever of its awaits rejects:
      the reading of the key, the proof, the writing of the key, or the pause before the POST. */
  predicate RecordedAlone(s: State, t: State, job: string, hasReceipt: bool, proof: bool, rejects: nat -> bool, r: Answer) {
    if !hasReceipt then r == NoReceipt && t == s
    else if job in s.busy then r == MayBeSent && t == s
    else if rejects(0) then r == Threw && t == s
    else if job in s.attempted then r == MayBeSent && t == s
    else if rejects(1) || rejects(2) then r == Threw && t == s
    else if rejects(3) then r == Threw && t == s.(attempted := s.attempted[job := proof])
    else r == Posted(proof) && t == s.(attempted := s.attempted[job := proof], log := s.log + [Emission(job, proof)])
  }

  /** The same of its try block, for the flight of this call. */
  predicate AttemptedAlone(s: State, t: State, pid: nat, job: string, proof: bool, rejects: nat -> bool, r: Answer) {
    var left := s.flights[pid := Leaving(job)];
    if rejects(0) then r == Threw && t == s.(flights := left)
    else if job in s.attempted then r == MayBeSent && t == s.(flights := left)
    else if rejects(1) || rejects(2) then r == Threw && t == s.(flights := left)
    else if rejects(3) then r == Threw && t == s.(attempted := s.attempted[job := proof], flights := left)
    else r == Posted(proof) && t == s.(attempted := s.attempted[job := proof], log := s.log + [Emission(job, proof)], flights := left)
  }

  lemma AloneFromAttempt(s: State, u: State, t: State, v: State, pid: nat, job: string, proof: bool, rejects: nat -> bool, r: Answer)
    requires pid !in s.flights && job !in s.busy
    requires u == s.(busy := s.busy + {job}, flights := s.flights[pid := Reading(job)])
    requires AttemptedAlone(u, t, pid, job, proof, rejects, r)
    requires v == t.(busy := t.busy - {job}, flights := t.flights - {pid})
    ensures RecordedAlone(s, v, job, true, proof, rejects, r)
  {
    assert v.busy == s.busy && v.flights == s.flights;
  }

  class ReceiptRecorder {
    var busy: set<string>             // OMA_ID_RECEIPT_BUSY
    var attempted: map<string, bool>  // sentra_id_receipt_<job>, with its v2 flag
    var flights: map<nat, Flight>
    ghost var log: seq<Emission>

    ghost function Emissions(): State
      reads this
    {
      State(busy, attempted, flights, log)
    }

    constructor ()
      ensures Emissions() == Init
    {
      busy, attempted, flights, log := {}, map[], map[], [];
    }

    /** Up to the first await. */
    method EnterCall(pid: nat, job: string, hasReceipt: bool) returns (r: Entered)
      requires pid !in flights
      modifies this
      ensures if hasReceipt then Emissions() == Step(old(Emissions()), Enter(pid, job)) else Emissions() == old(Emissions())
      ensures r == if !hasReceipt then Unconfirmed else if job in old(busy) then Uncertain else Proceeds
      ensures Emissions() == if r.Proceeds? then old(Emissions()).(busy := old(busy) + {job}, flights := old(flights)[pid := Reading(job)])
                             else old(Emissions())
    {
      if !hasReceipt {
        return Unconfirmed;
      }
      if job in busy {
        return Uncertain;
      }
      busy := busy + {job};
      flights := flights[pid := Reading(job)];
      return Proceeds;
    }

    method ReadAttempted(pid: nat) returns (uncertain: bool)
      requires pid in flights && flights[pid].Reading?
      modifies this
      ensures Emissions() == Step(old(Emissions()), ReadKey(pid))
      ensures uncertain <==> old(flights)[pid].job in attempted
      ensures var job := old(flights)[pid].job;
        Emissions() == old(Emissions()).(flights := old(flights)[pid := if uncertain then Leaving(job) else Witnessing(job)])
    {
      var job := flights[pid].job;
      uncertain := job in attempted;
      flights := flights[pid := if uncertain then Leaving(job) else Witnessing(job)];
    }

    method Promote(pid: nat, proof: bool)
      requires pid in flights && flights[pid].Witnessing?
      modifies this
      ensures Emissions() == Step(old(Emissions()), Witness(pid, proof))
      ensures Emissions() == old(Emissions()).(flights := old(flights)[pid := Storing(old(flights)[pid].job, proof)])
    {
      flights := flights[pid := Storing(flights[pid].job, proof)];
    }

    method StoreAttempted(pid: nat)
      requires pid in flights && flights[pid].Storing?
      modifies this
      ensures Emissions() == Step(old(Emissions()), WriteKey(pid))
      ensures var f := old(flights)[pid];
        Emissions() == old(Emissions()).(attempted := old(attempted)[f.job := f.v2], flights := old(flights)[pid := Emitting(f.job, f.v2)])
    {
      var f := flights[pid];
      attempted := attempted[f.job := f.v2];
      flights := flights[pid := Emitting(f.job, f.v2)];
    }

    /** The POST of /jobs/delivery-receipt; a second POST after re-pairing belongs to it. */
    method Post(pid: nat)
      requires pid in flights && flights[pid].Emitting?
      modifies this
      ensures Emissions() == Step(old(Emissions()), Emit(pid))
      ensures var f := old(flights)[pid];
        Emissions() == old(Emissions()).(log := old(log) + [Emission(f.job, f.v2)], flights := old(flights)[pid := Leaving(f.job)])
    {
      var f := flights[pid];
      log := log + [Emission(f.job, f.v2)];
      flights := flights[pid := Leaving(f.job)];
    }

    /** The finally block. */
    method LeaveCall(pid: nat)
      requires pid in flights && flights[pid].Leaving?
      modifies this
      ensures Emissions() == Step(old(Emissions()), Leave(pid))
      ensures Emissions() == old(Emissions()).(busy := old(busy) - {old(flights)[pid].job}, flights := old(flights) - {pid})
    {
      busy := busy - {flights[pid].job};
      flights := flights - {pid};
    }

    method RestartWorker()
      modifies this
      ensures Emissions() == Step(old(Emissions()), Restart) && Emissions() == old(Emissions()).(busy := {}, flights := map[])
    {
      busy, flights := {}, map[];
    }

    method Fail(pid: nat)
      requires pid in flights
      modifies this`flights
      ensures Emissions() == Step(old(Emissions()), Throw(pid))
      ensures Emissions() == old(Emissions()).(flights := old(flights)[pid := Leaving(old(flights)[pid].job)])
    {
      flights := flights[pid := Leaving(flights[pid].job)];
    }

    /** What other calls do at an await. */
    method Meanwhile(events: seq<Event>)
      requires Inv(Emissions())
      modifies this
      ensures Emissions() == Run(old(Emissions()), events) && Inv(Emissions())
    {
      hide Inv;
      assert events[..0] == [];
      for i := 0 to |events|
        invariant Emissions() == Run(old(Emissions()), events[..i]) && Inv(Emissions())
      {
        ghost var s := Emissions();
        StepKeepsInv(s, events[i]);
        Play(events[i]);
        assert events[..i + 1] == events[..i] + [events[i]];
        RunAppend(old(Emissions()), events[..i], [events[i]]);
        RunOne(s, events[i]);
      }
      assert events[..|events|] == events;
    }

    method Play(e: Event)
      modifies this
      ensures Emissions() == Step(old(Emissions()), e)
    {
      if e.Restart? {
        RestartWorker();
      } else if e.LateWrite? {
        attempted := attempted[e.job := e.v2];
      } else if e.Enter? {
        if e.pid !in flights {
          var r := EnterCall(e.pid, e.job, true);
        }
      } else if e.pid in flights {
        if e.ReadKey? && flights[e.pid].Reading? {
          var uncertain := ReadAttempted(e.pid);
        } else if e.Witness? && flights[e.pid].Witnessing? {
          Promote(e.pid, e.proof);
        } else if e.WriteKey? && flights[e.pid].Storing? {
          StoreAttempted(e.pid);
        } else if e.Emit? && flights[e.pid].Emitting? {
          Post(e.pid);
        } else if e.Throw? {
          Fail(e.pid);
        } else if e.Leave? && flights[e.pid].Leaving? {
          LeaveCall(e.pid);
        }
      }
    }

    // A whole call

    lemma Stepped(start: State, before: seq<Event>, s: State, e: Event) returns (run: seq<Event>)
      requires s == Run(start, before) && Inv(s) && Emissions() == Step(s, e)
      ensures run == before + [e] && Emissions() == Run(start, run) && Inv(Emissions())
    {
      hide Step, Inv;
      run := before + [e];
      StepKeepsInv(s, e);
      RunAppend(start, before, [e]);
      RunOne(s, e);
    }

    /** An await of the call: others have their turn, and it may reject. */
    method Await(pid: nat, events: seq<Event>, rejects: bool, ghost start: State, ghost before: seq<Event>)
      returns (ghost run: seq<Event>)
      requires Inv(Emissions()) && Emissions() == Run(start, before) && OfOthers(events, pid) && pid in flights
      modifies this
      ensures Emissions() == Run(start, run) && Inv(Emissions()) && pid in flights
      ensures flights[pid] == if rejects then Leaving(old(flights)[pid].job) else old(flights)[pid]
      ensures events == [] ==>
                Emissions() == if rejects then old(Emissions()).(flights := old(flights)[pid := Leaving(old(flights)[pid].job)])
                               else old(Emissions())
    {
      hide Step, Inv, OfOthers;
      NothingRuns(Emissions());
      run := before + events;
      RunAppend(start, before, events);
      OthersLeaveFlight(Emissions(), events, pid);
      Meanwhile(events);
      if rejects {
        ghost var s := Emissions();
        Fail(pid);
        run := Stepped(start, run, s, Throw(pid));
      }
    }

    /** omaRecordDeliveryReceipt from beginning to end. If it posts, its receipt is the only one
        there has ever been for the job, whatever other calls do at its awaits and whichever of
        them rejects. Left alone, it posts exactly when there is a receipt, no call of the job is
        under way, no attempt is on record and no await rejects; and it leaves an attempt on
        record exactly from its write on. */
    method Record(pid: nat, job: string, hasReceipt: bool, proof: bool, rejects: nat -> bool, others: nat -> seq<Event>)
      returns (r: Answer, ghost run: seq<Event>)
      requires Inv(Emissions()) && pid !in flights && forall n :: OfOthers(others(n), pid)
      modifies this
      ensures Emissions() == Run(old(Emissions()), run) && Inv(Emissions()) && pid !in flights
      ensures r.Posted? ==> r.v2 == proof && OnlyEmission(log, Emission(job, proof))
      ensures r.NoReceipt? <==> !hasReceipt
      ensures job in old(busy) && hasReceipt ==> r.MayBeSent? && Emissions() == old(Emissions())
      ensures (forall n :: others(n) == []) ==> RecordedAlone(old(Emissions()), Emissions(), job, hasReceipt, proof, rejects, r)
    {
      hide Step, Run, Inv, OfOthers, OnlyEmission, AttemptedAlone;
      ghost var start := Emissions();
      NothingRuns(start);
      var entered := EnterCall(pid, job, hasReceipt);
      if !entered.Proceeds? {
        return if entered.Unconfirmed? then NoReceipt else MayBeSent, [];
      }
      run := Stepped(start, [], start, Enter(pid, job));
      ghost var entry := Emissions();
      r, run := Attempt(pid, proof, rejects, others, start, run);
      ghost var s := Emissions();
      LeaveCall(pid);
      run := Stepped(start, run, s, Leave(pid));
      if forall n :: others(n) == [] {
        AloneFromAttempt(start, entry, s, Emissions(), pid, job, proof, rejects, r);
      }
    }

    /** The body of the try block. */
    method Attempt(pid: nat, proof: bool, rejects: nat -> bool, others: nat -> seq<Event>, ghost start: State, ghost before: seq<Event>)
      returns (r: Answer, ghost run: seq<Event>)
      requires Inv(Emissions()) && Emissions() == Run(start, before) && pid in flights && flights[pid].Reading?
      requires forall n :: OfOthers(others(n), pid)
      modifies this
      ensures Emissions() == Run(start, run) && Inv(Emissions()) && pid in flights && flights[pid] == Leaving(old(flights)[pid].job)
      ensures (forall n :: others(n) == []) ==>
                AttemptedAlone(old(Emissions()), Emissions(), pid, old(flights)[pid].job, proof, rejects, r)
      ensures !r.NoReceipt? && (r.Posted? ==> r.v2 == proof && OnlyEmission(log, Emission(old(flights)[pid].job, proof)))
    {
      hide Step, Run, Inv, OfOthers, OnlyEmission;
      ghost var s: State;
      run := Await(pid, others(0), rejects(0), start, before);
      if flights[pid].Leaving? {
        return Threw, run;
      }
      s := Emissions();
      var uncertain := ReadAttempted(pid);
      run := Stepped(start, run, s, ReadKey(pid));
      if uncertain {
        return MayBeSent, run;
      }
      run := Await(pid, others(1), rejects(1), start, run);
      if flights[pid].Leaving? {
        return Threw, run;
      }
      s := Emissions();
      Promote(pid, proof);
      run := Stepped(start, run, s, Witness(pid, proof));
      r, run := StoreAndPost(pid, rejects, others, start, run);
    }

    method StoreAndPost(pid: nat, rejects: nat -> bool, others: nat -> seq<Event>, ghost start: State, ghost before: seq<Event>)
      returns (r: Answer, ghost run: seq<Event>)
      requires Inv(Emissions()) && Emissions() == Run(start, before) && pid in flights && flights[pid].Storing?
      requires forall n :: OfOthers(others(n), pid)
      modifies this
      ensures Emissions() == Run(start, run) && Inv(Emissions()) && pid in flights && flights[pid] == Leaving(old(flights)[pid].job)
      ensures var f := old(flights)[pid];
        var stored := if rejects(2) then old(attempted) else old(attempted)[f.job := f.v2];
        (forall n :: others(n) == []) ==>
          && r == (if rejects(2) || rejects(3) then Threw else Posted(f.v2))
          && Emissions() == old(Emissions()).(attempted := stored, flights := old(flights)[pid := Leaving(f.job)],
                                              log := if r.Posted? then old(log) + [Emission(f.job, f.v2)] else old(log))
      ensures var f := old(flights)[pid];
        (r.Threw? || r.Posted?) && (r.Posted? ==> r.v2 == f.v2 && OnlyEmission(log, Emission(f.job, f.v2)))
    {
      hide Step, Run, Inv, OfOthers, OnlyEmission;
      ghost var s: State;
      run := Await(pid, others(2), rejects(2), start, before);
      if flights[pid].Leaving? {
        return Threw, run;
      }
      s := Emissions();
      StoreAttempted(pid);
      run := Stepped(start, run, s, WriteKey(pid));
      run := Await(pid, others(3), rejects(3), start, run);
      if flights[pid].Leaving? {
        return Threw, run;
      }
      s := Emissions();
      var v2 := flights[pid].v2;
      Post(pid);
      run := Stepped(start, run, s, Emit(pid));
      LastIsOnly(Emissions());
      r := Posted(v2);
    }
  }
}
