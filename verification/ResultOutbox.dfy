/** The durable result outbox of edge_extension/service-worker.js: results wait in
    chrome.storage.local until the relay has taken them. Writes and compare-and-removes go
    through one queue of mutations; flushes read and post beside it. */
module ResultOutbox {
  import opened Basics

  /** An action of omaMutateResults. An erase compares first and removes at a later step. */
  datatype Mutation =
    | Write(job: string, value: string)
    | Erase(pid: nat, job: string, value: string, matched: bool)

  /** A flush: what is left of its snapshot, and whether it waits for its own erase. */
  datatype Flushing = Flushing(todo: seq<(string, string)>, waiting: bool)

  datatype Answer = Success | Http400 | Failure

  datatype Entry =
    | Stored(job: string, value: string)    // written to the outbox
    | Settled(job: string, value: string)   // posted from it and answered with success or 400
    | Direct(job: string)                   // posted without being stored

  datatype State = State(outbox: map<string, string>, queue: seq<Mutation>, flushes: map<nat, Flushing>, log: seq<Entry>)

  const Init := State(map[], [], map[], [])

  const WEBSEND := "websend_"

  predicate Websend(job: string) {
    WEBSEND <= job
  }

  datatype Event =
    | Post(job: string, value: string, completed: bool)
    | Mutate                             // the next step of the first mutation
    | MutationFails                      // its storage call rejects
    | FlushRead(pid: nat, keys: seq<string>)
    | FlushPost(pid: nat, answer: Answer)
    | Die(pid: nat)
    | Restart

  /** omaPostResult: a websend result is attested elsewhere or posted at once, never stored. */
  function PostStep(s: State, job: string, value: string, completed: bool): State {
    if Websend(job) then (if completed then s else s.(log := s.log + [Direct(job)]))
    else s.(queue := s.queue + [Write(job, value)])
  }

  /** The flush that queued a finished erase goes on. */
  function Resumed(flushes: map<nat, Flushing>, pid: nat): map<nat, Flushing> {
    if pid in flushes then flushes[pid := flushes[pid].(waiting := false)] else flushes
  }

  function MutateStep(s: State): State {
    if s.queue == [] then s
    else
      var m := s.queue[0];
      match m
      case Write(job, value) =>
        s.(outbox := s.outbox[job := value], queue := s.queue[1..], log := s.log + [Stored(job, value)])
      case Erase(pid, job, value, matched) =>
        if matched then
          s.(outbox := s.outbox - {job}, queue := s.queue[1..], flushes := Resumed(s.flushes, pid))
        else if job in s.outbox && s.outbox[job] == value then
          s.(queue := [Erase(pid, job, value, true)] + s.queue[1..])
        else
          s.(queue := s.queue[1..], flushes := Resumed(s.flushes, pid))
  }

  function MutationFailsStep(s: State): State {
    if s.queue == [] then s
    else s.(queue := s.queue[1..], flushes := if s.queue[0].Erase? then s.flushes - {s.queue[0].pid} else s.flushes)
  }

  predicate Distinct(keys: seq<string>) {
    forall i, j :: 0 <= i < j < |keys| ==> keys[i] != keys[j]
  }

  /** The whole outbox, entry by entry. */
  function Entries(outbox: map<string, string>, keys: seq<string>): (r: seq<(string, string)>)
    requires forall k :: k in keys ==> k in outbox
    ensures |r| == |keys| && forall i :: 0 <= i < |r| ==> r[i] == (keys[i], outbox[keys[i]])
  {
    if keys == [] then [] else Entries(outbox, keys[..|keys| - 1]) + [(keys[|keys| - 1], outbox[keys[|keys| - 1]])]
  }

  predicate Listing(outbox: map<string, string>, keys: seq<string>) {
    Distinct(keys) && (set k | k in keys) == outbox.Keys
  }

  /** omaOutboxFlushTask: a flush starts only when none is on its way. */
  function FlushReadStep(s: State, pid: nat, keys: seq<string>): State {
    if s.flushes != map[] || !Listing(s.outbox, keys) then s
    else
      assert forall k :: k in keys ==> k in (set x | x in keys);
      s.(flushes := s.flushes[pid := Flushing(Entries(s.outbox, keys), false)])
  }

  function FlushPostStep(s: State, pid: nat, answer: Answer): State {
    if pid !in s.flushes || s.flushes[pid].waiting then s
    else if s.flushes[pid].todo == [] then s.(flushes := s.flushes - {pid})
    else
      var (job, value) := s.flushes[pid].todo[0];
      var rest := s.flushes[pid].todo[1..];
      if answer == Failure then s.(flushes := s.flushes[pid := Flushing(rest, false)])
      else s.(flushes := s.flushes[pid := Flushing(rest, true)],
              log := s.log + [Settled(job, value)],
              queue := s.queue + [Erase(pid, job, value, false)])
  }

  function Step(s: State, e: Event): State {
    match e
    case Post(job, value, completed) => PostStep(s, job, value, completed)
    case Mutate => MutateStep(s)
    case MutationFails => MutationFailsStep(s)
    case FlushRead(pid, keys) => FlushReadStep(s, pid, keys)
    case FlushPost(pid, answer) => FlushPostStep(s, pid, answer)
    case Die(pid) => s.(flushes := s.flushes - {pid})
    case Restart => s.(queue := [], flushes := map[])
  }

  function Run(s: State, events: seq<Event>): State
    decreases |events|
  {
    if events == [] then s else Run(Step(s, events[0]), events[1..])
  }

  // ---------------------------------------------------------------- the invariant

  /** The value last written to the outbox for a job. */
  function LastStored(log: seq<Entry>, job: string): Option<string>
    decreases |log|
  {
    if log == [] then None
    else
      var last := log[|log| - 1];
      if last.Stored? && last.job == job then Some(last.value) else LastStored(log[..|log| - 1], job)
  }

  /** A job whose result is neither waiting nor settled has never been stored. */
  predicate Kept(s: State, job: string) {
    var last := LastStored(s.log, job);
    (job in s.outbox ==> last == Some(s.outbox[job])) && (last.Some? && job !in s.outbox ==> Settled(job, last.value) in s.log)
  }

  predicate MutationSound(s: State, i: nat)
    requires i < |s.queue|
  {
    match s.queue[i]
    case Write(job, _) => !Websend(job)
    case Erase(_, job, value, matched) =>
      Settled(job, value) in s.log && (matched ==> i == 0 && job in s.outbox && s.outbox[job] == value)
  }

  /** An erase of the flush is in the queue. */
  predicate Awaited(queue: seq<Mutation>, pid: nat) {
    exists i :: 0 <= i < |queue| && queue[i].Erase? && queue[i].pid == pid
  }

  predicate WaitSound(s: State, pid: nat) {
    pid in s.flushes && s.flushes[pid].waiting ==> Awaited(s.queue, pid)
  }

  ghost predicate Inv(s: State) {
    && (forall job :: Kept(s, job))
    && (forall i :: 0 <= i < |s.queue| ==> MutationSound(s, i))
    && (forall job :: job in s.outbox ==> !Websend(job))
    && (forall pid :: WaitSound(s, pid))
  }

  lemma AwaitedMore(queue: seq<Mutation>, m: Mutation, pid: nat)
    requires Awaited(queue, pid)
    ensures Awaited(queue + [m], pid)
  {
    var i :| 0 <= i < |queue| && queue[i].Erase? && queue[i].pid == pid;
    assert (queue + [m])[i] == queue[i];
  }

  lemma AwaitedLess(queue: seq<Mutation>, pid: nat)
    requires queue != [] && Awaited(queue, pid) && !(queue[0].Erase? && queue[0].pid == pid)
    ensures Awaited(queue[1..], pid)
  {
    var i :| 0 <= i < |queue| && queue[i].Erase? && queue[i].pid == pid;
    assert queue[1..][i - 1] == queue[i];
  }

  lemma AwaitedStill(queue: seq<Mutation>, m: Mutation, pid: nat)
    requires queue != [] && Awaited(queue, pid) && queue[0].Erase? && m.Erase? && m.pid == queue[0].pid
    ensures Awaited([m] + queue[1..], pid)
  {
    var i :| 0 <= i < |queue| && queue[i].Erase? && queue[i].pid == pid;
    assert ([m] + queue[1..])[i] == if i == 0 then m else queue[i];
  }

  /** Waiting flushes have their erase in the queue after every step. */
  lemma WaitsSoundly(s: State, e: Event)
    requires forall pid :: WaitSound(s, pid)
    ensures forall pid :: WaitSound(Step(s, e), pid)
  {
    var t := Step(s, e);
    forall pid ensures WaitSound(t, pid) {
      assert WaitSound(s, pid);
      if pid in t.flushes && t.flushes[pid].waiting {
        match e
        case Post(job, value, _) =>
          AwaitedMore(s.queue, Write(job, value), pid);
        case FlushPost(p, answer) =>
          if p == pid && t.queue != s.queue {
            assert t.queue[|s.queue|].Erase?;
          } else if t.queue != s.queue {
            AwaitedMore(s.queue, t.queue[|s.queue|], pid);
          }
        case Mutate =>
          if s.queue != [] {
            if |t.queue| < |s.queue| {
              AwaitedLess(s.queue, pid);
            } else {
              AwaitedStill(s.queue, t.queue[0], pid);
            }
          }
        case MutationFails =>
          if s.queue != [] {
            AwaitedLess(s.queue, pid);
          }
        case _ =>
      }
    }
  }

  lemma LastStoredAppend(log: seq<Entry>, e: Entry, job: string)
    ensures LastStored(log + [e], job) == if e.Stored? && e.job == job then Some(e.value) else LastStored(log, job)
  {
    assert (log + [e])[..|log|] == log;
  }

  lemma PostKeeps(s: State, job: string, value: string, completed: bool)
    requires Inv(s)
    ensures Inv(PostStep(s, job, value, completed))
  {
    WaitsSoundly(s, Post(job, value, completed));
    assert Step(s, Post(job, value, completed)) == PostStep(s, job, value, completed);
    var t := PostStep(s, job, value, completed);
    forall j ensures Kept(t, j) {
      assert Kept(s, j);
      LastStoredAppend(s.log, Direct(job), j);
    }
    forall i | 0 <= i < |t.queue| ensures MutationSound(t, i) {
      if i < |s.queue| {
        assert MutationSound(s, i);
      }
    }
  }

  lemma MutateKeeps(s: State)
    requires Inv(s)
    ensures Inv(MutateStep(s))
  {
    WaitsSoundly(s, Mutate);
    assert Step(s, Mutate) == MutateStep(s);
    if s.queue != [] {
      var t := MutateStep(s);
      assert MutationSound(s, 0);
      forall j ensures Kept(t, j) {
        assert Kept(s, j);
        if s.queue[0].Write? {
          LastStoredAppend(s.log, Stored(s.queue[0].job, s.queue[0].value), j);
        }
      }
      forall i | 0 <= i < |t.queue| ensures MutationSound(t, i) {
        if |t.queue| == |s.queue| {
          assert MutationSound(s, i);
        } else {
          assert MutationSound(s, i + 1);
        }
      }
    }
  }

  lemma FlushPostKeeps(s: State, pid: nat, answer: Answer)
    requires Inv(s)
    ensures Inv(FlushPostStep(s, pid, answer))
  {
    WaitsSoundly(s, FlushPost(pid, answer));
    assert Step(s, FlushPost(pid, answer)) == FlushPostStep(s, pid, answer);
    var t := FlushPostStep(s, pid, answer);
    forall j ensures Kept(t, j) {
      assert Kept(s, j);
      if t.log != s.log {
        LastStoredAppend(s.log, t.log[|s.log|], j);
      }
    }
    forall i | 0 <= i < |t.queue| ensures MutationSound(t, i) {
      if i < |s.queue| {
        assert MutationSound(s, i);
      }
    }
  }

  lemma StepKeepsInv(s: State, e: Event)
    requires Inv(s)
    ensures Inv(Step(s, e))
  {
    hide PostStep, MutateStep, FlushPostStep;
    match e
    case Post(job, value, completed) => PostKeeps(s, job, value, completed);
    case Mutate => MutateKeeps(s);
    case FlushPost(pid, answer) => FlushPostKeeps(s, pid, answer);
    case MutationFails => OthersKeep(s, e);
    case FlushRead(_, _) => OthersKeep(s, e);
    case Die(_) => OthersKeep(s, e);
    case Restart => OthersKeep(s, e);
  }

  lemma OthersKeep(s: State, e: Event)
    requires Inv(s) && (e.MutationFails? || e.FlushRead? || e.Die? || e.Restart?)
    ensures Inv(Step(s, e))
  {
    WaitsSoundly(s, e);
    var t := Step(s, e);
    forall j ensures Kept(t, j) {
      assert Kept(s, j);
    }
    forall i | 0 <= i < |t.queue| ensures MutationSound(t, i) {
      assert MutationSound(s, if |t.queue| == |s.queue| then i else i + 1);
    }
  }

  lemma {:induction false} RunKeepsInv(s: State, events: seq<Event>)
    requires Inv(s)
    ensures Inv(Run(s, events))
    decreases |events|
  {
    if events != [] {
      StepKeepsInv(s, events[0]);
      RunKeepsInv(Step(s, events[0]), events[1..]);
    }
  }

  /** Over every run of writes, flushes, failures and restarts, the last result stored for a job
      is in the outbox, or exactly it was posted and answered with success or HTTP 400; and no
      websend result is ever in the outbox. */
  lemma NoResultIsLost(events: seq<Event>, job: string)
    ensures var s := Run(Init, events);
      var last := LastStored(s.log, job);
      && (last.Some? ==> (job in s.outbox && s.outbox[job] == last.value) || Settled(job, last.value) in s.log)
      && (job in s.outbox ==> last == Some(s.outbox[job]) && !Websend(job))
  {
    RunKeepsInv(Init, events);
    assert Kept(Run(Init, events), job);
  }

  /** A key leaves the outbox only with the value that was settled: an answer for an older
      value never removes a newer one. */
  lemma RemovedOnlyWhenSettled(s: State, e: Event, job: string)
    requires Inv(s) && job in s.outbox && job !in Step(s, e).outbox
    ensures Settled(job, s.outbox[job]) in s.log
  {
    assert e.Mutate? && MutationSound(s, 0);
  }

  // ---------------------------------------------------------------- runs put together

  lemma NothingRuns(s: State)
    ensures Run(s, []) == s
  {
  }

  lemma RunOne(s: State, e: Event)
    ensures Run(s, [e]) == Step(s, e)
  {
    hide Step;
    assert [e][1..] == [];
  }

  lemma {:induction false} RunAppend(s: State, a: seq<Event>, b: seq<Event>)
    ensures Run(s, a + b) == Run(Run(s, a), b)
    decreases |a|
  {
    hide Step;
    if a == [] {
      assert a + b == b;
    } else {
      assert (a + b)[0] == a[0] && (a + b)[1..] == a[1..] + b;
      RunAppend(Step(s, a[0]), a[1..], b);
    }
  }

  lemma {:induction false} LogOnlyGrows(s: State, events: seq<Event>)
    ensures s.log <= Run(s, events).log
    decreases |events|
  {
    if events != [] {
      LogOnlyGrows(Step(s, events[0]), events[1..]);
    }
  }

  /** None of the steps is one of this flush, and the worker lives on. */
  predicate OfOthers(events: seq<Event>, pid: nat) {
    forall e :: e in events ==> !e.Restart? && (e.FlushRead? || e.FlushPost? || e.Die? ==> e.pid != pid)
  }

  /** The flush is where it was, unless it waited for its erase or an erase of it failed. */
  predicate Follows(s: State, t: State, pid: nat) {
    pid in t.flushes ==> pid in s.flushes && t.flushes[pid].todo == s.flushes[pid].todo
                         && (t.flushes[pid].waiting ==> s.flushes[pid].waiting)
  }

  lemma OtherLeavesFlush(s: State, e: Event, pid: nat)
    requires OfOthers([e], pid)
    ensures Follows(s, Step(s, e), pid)
  {
    assert e in [e];
    hide Listing;
  }

  lemma {:induction false} OthersLeaveFlush(s: State, events: seq<Event>, pid: nat)
    requires OfOthers(events, pid)
    ensures Follows(s, Run(s, events), pid)
    decreases |events|
  {
    hide Step;
    if events != [] {
      OtherLeavesFlush(s, events[0], pid);
      OthersLeaveFlush(Step(s, events[0]), events[1..], pid);
    }
  }

  /** Steps of the mutations that are left. */
  function Work(queue: seq<Mutation>): nat {
    if queue == [] then 0 else (if queue[0].Erase? && !queue[0].matched then 2 else 1) + Work(queue[1..])
  }

  lemma WorkShrinks(s: State)
    requires s.queue != []
    ensures Work(MutateStep(s).queue) < Work(s.queue)
  {
    var t := MutateStep(s);
    if |t.queue| == |s.queue| {
      assert t.queue[1..] == s.queue[1..];
    }
  }

  predicate Answered(keys: seq<string>, answers: nat -> Answer, n: nat, job: string) {
    exists i :: 0 <= i < n && i < |keys| && keys[i] == job && answers(i) != Failure
  }

  /** What is left of the outbox when the first n keys have been posted with these answers. */
  function Unanswered(outbox: map<string, string>, keys: seq<string>, answers: nat -> Answer, n: nat): map<string, string> {
    map job | job in outbox && !Answered(keys, answers, n, job) :: outbox[job]
  }

  lemma UnansweredNext(outbox: map<string, string>, keys: seq<string>, answers: nat -> Answer, n: nat)
    requires n < |keys|
    ensures Unanswered(outbox, keys, answers, n + 1)
            == if answers(n) == Failure then Unanswered(outbox, keys, answers, n) else Unanswered(outbox, keys, answers, n) - {keys[n]}
  {
    forall job
      ensures Answered(keys, answers, n + 1, job) <==> Answered(keys, answers, n, job) || (job == keys[n] && answers(n) != Failure)
    {
      if Answered(keys, answers, n, job) {
        var i :| 0 <= i < n && i < |keys| && keys[i] == job && answers(i) != Failure;
        assert 0 <= i < n + 1;
      }
    }
  }

  lemma NotAnsweredYet(outbox: map<string, string>, keys: seq<string>, answers: nat -> Answer, n: nat)
    requires n < |keys| && Listing(outbox, keys)
    ensures keys[n] in Unanswered(outbox, keys, answers, n)
  {
    assert keys[n] in (set k | k in keys);
  }

  /** The last result stored for the job waits, or exactly it was settled. */
  predicate Secured(s: State, job: string) {
    var last := LastStored(s.log, job);
    last.Some? && ((job in s.outbox && s.outbox[job] == last.value) || Settled(job, last.value) in s.log)
  }

  lemma {:induction false} LastStoredStays(log: seq<Entry>, more: seq<Entry>, job: string)
    requires log <= more && LastStored(log, job).Some?
    ensures LastStored(more, job).Some?
    decreases |more|
  {
    if |more| > |log| {
      assert log <= more[..|more| - 1];
      LastStoredStays(log, more[..|more| - 1], job);
    } else {
      assert more == log;
    }
  }

  /** A result that waits is secured after every run. */
  lemma WaitingIsSecured(s: State, events: seq<Event>, job: string)
    requires Inv(s) && job in s.outbox
    ensures Secured(Run(s, events), job)
  {
    RunKeepsInv(s, events);
    LogOnlyGrows(s, events);
    hide Step, Run;
    assert Kept(s, job) && Kept(Run(s, events), job);
    LastStoredStays(s.log, Run(s, events).log, job);
  }

  // ---------------------------------------------------------------- the service worker

  /** A job whose identifier starts with "websend_". */
  predicate OfWebsend(job: string) {
    |job| >= 8 && job[..8] == "websend_"
  }

  lemma OfWebsendIff(job: string)
    ensures OfWebsend(job) <==> Websend(job)
  {
    assert OfWebsend(job) ==> WEBSEND <= job;
  }

  /** The flush that waited for its erase goes on. */
  predicate WentOn(before: map<nat, Flushing>, after: map<nat, Flushing>, pid: nat) {
    after == if pid in before then before[pid := Flushing(before[pid].todo, false)] else before
  }

  /** What is left of the outbox when these keys were posted with these answers. */
  lemma UnansweredIs(outbox: map<string, string>, keys: seq<string>, answers: nat -> Answer)
    ensures Unanswered(outbox, keys, answers, |keys|)
            == outbox - set i | 0 <= i < |keys| && answers(i) != Failure :: keys[i]
  {
    var gone := set i | 0 <= i < |keys| && answers(i) != Failure :: keys[i];
    forall job ensures Answered(keys, answers, |keys|, job) <==> job in gone {
    }
  }

  class Outbox {
    var outbox: map<string, string>   // oma_result_<job>
    var queue: seq<Mutation>          // omaResultWrites
    var flushes: map<nat, Flushing>
    ghost var log: seq<Entry>

    ghost function Contents(): State
      reads this
    {
      State(outbox, queue, flushes, log)
    }

    constructor ()
      ensures Contents() == Init
    {
      outbox, queue, flushes, log := map[], [], map[], [];
    }

    method PostResult(job: string, value: string, completed: bool)
      modifies this
      ensures Contents() == Step(old(Contents()), Post(job, value, completed))
      ensures Contents() == if !OfWebsend(job) then old(Contents()).(queue := old(queue) + [Write(job, value)])
                            else if completed then old(Contents()) else old(Contents()).(log := old(log) + [Direct(job)])
    {
      OfWebsendIff(job);
      if Websend(job) {
        if !completed {
          log := log + [Direct(job)];
        }
        return;
      }
      queue := queue + [Write(job, value)];
    }

    method Resume(pid: nat)
      modifies this`flushes
      ensures flushes == Resumed(old(flushes), pid) && WentOn(old(flushes), flushes, pid)
    {
      if pid in flushes {
        flushes := flushes[pid := flushes[pid].(waiting := false)];
      }
    }

    /** One step of the first mutation: its write, its comparison or its removal. */
    method RunMutation()
      requires queue != []
      modifies this
      ensures Contents() == Step(old(Contents()), Mutate)
      ensures match old(queue)[0]
              case Write(job, value) =>
                Contents() == old(Contents()).(outbox := old(outbox)[job := value], queue := old(queue)[1..],
                                               log := old(log) + [Stored(job, value)])
              case Erase(pid, job, value, matched) =>
                if !matched && job in old(outbox) && old(outbox)[job] == value then
                  Contents() == old(Contents()).(queue := [Erase(pid, job, value, true)] + old(queue)[1..])
                else
                  && Contents() == old(Contents()).(outbox := if matched then old(outbox) - {job} else old(outbox), queue := old(queue)[1..],
                                                    flushes := flushes)
                  && WentOn(old(flushes), flushes, pid)
    {
      var m := queue[0];
      match m
      case Write(job, value) =>
        outbox, queue, log := outbox[job := value], queue[1..], log + [Stored(job, value)];
      case Erase(pid, job, value, matched) =>
        if matched {
          outbox, queue := outbox - {job}, queue[1..];
          Resume(pid);
        } else if job in outbox && outbox[job] == value {
          queue := [Erase(pid, job, value, true)] + queue[1..];
        } else {
          queue := queue[1..];
          Resume(pid);
        }
    }

    /** The storage call of the first mutation rejects; a flush that waits for it ends. */
    method FailMutation()
      requires queue != []
      modifies this
      ensures Contents() == Step(old(Contents()), MutationFails)
      ensures Contents() == old(Contents()).(queue := old(queue)[1..],
                                             flushes := if old(queue)[0].Erase? then old(flushes) - {old(queue)[0].pid} else old(flushes))
    {
      if queue[0].Erase? {
        flushes := flushes - {queue[0].pid};
      }
      queue := queue[1..];
    }

    method FlushBegin(pid: nat, keys: seq<string>)
      requires flushes == map[] && Listing(outbox, keys)
      modifies this
      ensures Contents() == Step(old(Contents()), FlushRead(pid, keys))
      ensures (forall k :: k in keys ==> k in old(outbox)) && pid in flushes && flushes[pid] == Flushing(Entries(old(outbox), keys), false)
      ensures outbox == old(outbox) && queue == old(queue) && log == old(log)
    {
      var todo, i := [], 0;
      assert forall k :: k in keys ==> k in (set x | x in keys);
      while i < |keys|
        invariant 0 <= i <= |keys| && Contents() == old(Contents())
        invariant |todo| == i && forall j :: 0 <= j < i ==> todo[j] == (keys[j], outbox[keys[j]])
      {
        todo := todo + [(keys[i], outbox[keys[i]])];
        i := i + 1;
      }
      assert todo == Entries(outbox, keys);
      flushes := flushes[pid := Flushing(todo, false)];
    }

    method FlushNext(pid: nat, answer: Answer)
      requires pid in flushes && !flushes[pid].waiting
      modifies this
      ensures Contents() == Step(old(Contents()), FlushPost(pid, answer))
      ensures var todo := old(flushes)[pid].todo;
        Contents() == if todo == [] then old(Contents()).(flushes := old(flushes) - {pid})
                      else if answer == Failure then old(Contents()).(flushes := old(flushes)[pid := Flushing(todo[1..], false)])
                      else
                        var (job, value) := todo[0];
                        old(Contents()).(flushes := old(flushes)[pid := Flushing(todo[1..], true)],
                                         queue := old(queue) + [Erase(pid, job, value, false)], log := old(log) + [Settled(job, value)])
    {
      if flushes[pid].todo == [] {
        flushes := flushes - {pid};
        return;
      }
      var (job, value) := flushes[pid].todo[0];
      var rest := flushes[pid].todo[1..];
      if answer == Failure {
        flushes := flushes[pid := Flushing(rest, false)];
      } else {
        log := log + [Settled(job, value)];
        queue := queue + [Erase(pid, job, value, false)];
        flushes := flushes[pid := Flushing(rest, true)];
      }
    }

    // Whole calls, with whatever happens at their awaits

    method Play(e: Event)
      modifies this
      ensures Contents() == Step(old(Contents()), e)
    {
      match e
      case Post(job, value, completed) => PostResult(job, value, completed);
      case Mutate =>
        if queue != [] {
          RunMutation();
        }
      case MutationFails =>
        if queue != [] {
          FailMutation();
        }
      case FlushRead(pid, keys) =>
        if flushes == map[] && Listing(outbox, keys) {
          FlushBegin(pid, keys);
        }
      case FlushPost(pid, answer) =>
        if pid in flushes && !flushes[pid].waiting {
          FlushNext(pid, answer);
        }
      case Die(pid) => flushes := flushes - {pid};
      case Restart => queue, flushes := [], map[];
    }

    method Meanwhile(events: seq<Event>)
      requires Inv(Contents())
      modifies this
      ensures Contents() == Run(old(Contents()), events) && Inv(Contents())
    {
      hide Inv, Step, Run;
      assert events[..0] == [];
      NothingRuns(Contents());
      for i := 0 to |events|
        invariant Contents() == Run(old(Contents()), events[..i]) && Inv(Contents())
      {
        ghost var s := Contents();
        StepKeepsInv(s, events[i]);
        Play(events[i]);
        assert events[..i + 1] == events[..i] + [events[i]];
        RunAppend(old(Contents()), events[..i], [events[i]]);
        RunOne(s, events[i]);
      }
      assert events[..|events|] == events;
    }

    /** One step of a call, added to the run that led to it. */
    lemma Stepped(start: State, before: seq<Event>, s: State, e: Event) returns (run: seq<Event>)
      requires s == Run(start, before) && Inv(s) && Contents() == Step(s, e)
      ensures run == before + [e] && Contents() == Run(start, run) && Inv(Contents())
    {
      hide Step, Inv;
      run := before + [e];
      StepKeepsInv(s, e);
      RunAppend(start, before, [e]);
      RunOne(s, e);
    }

    method Await(pid: nat, events: seq<Event>, ghost start: State, ghost before: seq<Event>) returns (ghost run: seq<Event>)
      requires Inv(Contents()) && Contents() == Run(start, before) && OfOthers(events, pid)
      modifies this
      ensures Contents() == Run(start, run) && Inv(Contents()) && old(log) <= log && Follows(old(Contents()), Contents(), pid)
      ensures events == [] ==> Contents() == old(Contents())
    {
      hide Step, Inv, OfOthers;
      run := before + events;
      RunAppend(start, before, events);
      OthersLeaveFlush(Contents(), events, pid);
      LogOnlyGrows(Contents(), events);
      Meanwhile(events);
    }

    /** The erase that a flush has queued comes to its turn. If it is the only mutation, the
        value it names is gone from the outbox, and nothing else. */
    method WaitForErase(pid: nat, ghost job: string, ghost value: string, ghost start: State, ghost before: seq<Event>)
      returns (ghost run: seq<Event>)
      requires Inv(Contents()) && Contents() == Run(start, before) && pid in flushes
      modifies this
      ensures Contents() == Run(start, run) && Inv(Contents()) && old(log) <= log
      ensures pid in flushes ==> flushes[pid] == old(flushes)[pid].(waiting := false)
      ensures old(queue) == [Erase(pid, job, value, false)] && old(flushes)[pid].waiting ==>
                && pid in flushes && queue == [] && log == old(log)
                && outbox == if job in old(outbox) && old(outbox)[job] == value then old(outbox) - {job} else old(outbox)
    {
      hide Step, Run, Inv;
      run := before;
      while pid in flushes && flushes[pid].waiting
        invariant Contents() == Run(start, run) && Inv(Contents()) && old(log) <= log
        invariant pid in flushes ==> flushes[pid].todo == old(flushes)[pid].todo
        invariant old(queue) == [Erase(pid, job, value, false)] && old(flushes)[pid].waiting ==>
                    && pid in flushes && log == old(log)
                    && if flushes[pid].waiting then outbox == old(outbox) && (queue == old(queue)
                                                  || (queue == [Erase(pid, job, value, true)] && job in outbox && outbox[job] == value))
                       else queue == []
                            && outbox == if job in old(outbox) && old(outbox)[job] == value then old(outbox) - {job} else old(outbox)
        decreases Work(queue)
      {
        WaitingHasWork(Contents(), pid);
        WorkShrinks(Contents());
        ghost var s := Contents();
        MutationIs(s);
        RunMutation();
        run := Stepped(start, run, s, Mutate);
      }
    }

    /** omaFlushOutbox from beginning to end, beside whatever else happens at its awaits. Every
        result that waited when it began is secured: it waits still, or a newer one does, or it
        was settled. When it finishes, whatever was answered with success or 400 is settled; and
        if nobody else was at work exactly these results have left the outbox. */
    method Flush(pid: nat, keys: seq<string>, answers: nat -> Answer, others: nat -> seq<Event>)
      returns (end: FlushEnd, ghost run: seq<Event>)
      requires Inv(Contents()) && Listing(outbox, keys) && forall n :: OfOthers(others(n), pid)
      modifies this
      ensures Contents() == Run(old(Contents()), run) && Inv(Contents()) && old(log) <= log
      ensures forall job :: job in old(outbox) ==> Secured(Contents(), job)
      ensures end.Joined? <==> old(flushes) != map[]
      ensures end.Joined? ==> Contents() == old(Contents())
      ensures end.Finished? ==> pid !in flushes && SettledUpTo(log, old(outbox), keys, answers, |keys|)
      ensures !end.Joined? && old(queue) == [] && (forall n :: others(n) == []) ==>
                && end.Finished? && queue == [] && pid !in flushes
                && outbox == old(outbox) - set i | 0 <= i < |keys| && answers(i) != Failure :: keys[i]
    {
      UnansweredIs(outbox, keys, answers);
      hide Step, Run, Inv, OfOthers, Answered, Unanswered, Secured, Listing, SettledUpTo;
      ghost var start := Contents();
      NothingRuns(start);
      run := [];
      if flushes != map[] {
        end := Joined;
      } else {
        end, run := FlushAll(pid, keys, answers, others);
      }
      forall job | job in old(outbox) ensures Secured(Contents(), job) {
        WaitingIsSecured(start, run, job);
      }
    }

    /** The loop of a flush that is the only one. */
    method FlushAll(pid: nat, keys: seq<string>, answers: nat -> Answer, others: nat -> seq<Event>)
      returns (end: FlushEnd, ghost run: seq<Event>)
      requires Inv(Contents()) && Listing(outbox, keys) && flushes == map[] && forall n :: OfOthers(others(n), pid)
      modifies this
      ensures Contents() == Run(old(Contents()), run) && Inv(Contents()) && old(log) <= log
      ensures !end.Joined?
      ensures end.Finished? ==> pid !in flushes && SettledUpTo(log, old(outbox), keys, answers, |keys|)
      ensures old(queue) == [] && (forall n :: others(n) == []) ==>
                end.Finished? && queue == [] && outbox == Unanswered(old(outbox), keys, answers, |keys|)
    {
      ghost var start, was := Contents(), outbox;
      ListedKeys(was, keys);
      var todo := Entries(outbox, keys);
      ghost var alone := queue == [] && forall n :: others(n) == [];
      NothingSettledYet(log, was, keys, answers);
      AllUnanswered(was, keys, answers);
      hide Step, Run, Inv, OfOthers, Answered, Listing, SettledUpTo, Unanswered, Follows;
      NothingRuns(start);
      FlushBegin(pid, keys);
      run := Stepped(start, [], start, FlushRead(pid, keys));
      var i := 0;
      while i < |keys|
        invariant 0 <= i <= |keys| && Contents() == Run(start, run) && Inv(Contents()) && start.log <= log
        invariant pid in flushes && flushes[pid] == Flushing(todo[i..], false)
        invariant SettledUpTo(log, was, keys, answers, i)
        invariant alone ==> queue == [] && outbox == Unanswered(was, keys, answers, i)
      {
        run := FlushEntry(pid, was, keys, i, answers, others(2 * i), others(2 * i + 1), start, run);
        if pid !in flushes {
          return Broken, run;
        }
        i := i + 1;
      }
      ghost var s := Contents();
      assert todo[|keys|..] == [];
      FlushNext(pid, Failure);
      run := Stepped(start, run, s, FlushPost(pid, Failure));
      end := Finished;
    }

    /** One entry of a flush: its post, and its erase if the answer settles it. */
    method FlushEntry(pid: nat, ghost was: map<string, string>, keys: seq<string>, i: nat, answers: nat -> Answer,
                      before: seq<Event>, between: seq<Event>, ghost start: State, ghost led: seq<Event>) returns (ghost run: seq<Event>)
      requires Inv(Contents()) && Contents() == Run(start, led) && i < |keys| && Listing(was, keys)
      requires (forall k :: k in keys ==> k in was) && OfOthers(before, pid) && OfOthers(between, pid)
      requires pid in flushes && flushes[pid] == Flushing(Entries(was, keys)[i..], false)
      requires SettledUpTo(log, was, keys, answers, i)
      modifies this
      ensures Contents() == Run(start, run) && Inv(Contents()) && old(log) <= log
      ensures pid in flushes ==> flushes[pid] == Flushing(Entries(was, keys)[i + 1..], false)
      ensures pid in flushes ==> SettledUpTo(log, was, keys, answers, i + 1)
      ensures old(queue) == [] && before == [] && between == [] && old(outbox) == Unanswered(was, keys, answers, i) ==>
                pid in flushes && queue == [] && outbox == Unanswered(was, keys, answers, i + 1)
    {
      hide Step, Run, Inv, OfOthers, Answered;
      ghost var todo := Entries(was, keys);
      assert todo[i..][0] == (keys[i], was[keys[i]]) && todo[i..][1..] == todo[i + 1..];
      UnansweredNext(was, keys, answers, i);
      NotAnsweredYet(was, keys, answers, i);
      hide Listing, Unanswered;
      ghost var seen := log;
      run := Await(pid, before, start, led);
      SettledStays(seen, log, was, keys, answers, i);
      if pid !in flushes {
        return;
      }
      ghost var s := Contents();
      FlushNext(pid, answers(i));
      PostIs(s, pid, answers(i));
      run := Stepped(start, run, s, FlushPost(pid, answers(i)));
      SettledNext(s.log, log, was, keys, answers, i);
      hide Step, Entries, SettledUpTo;
      if answers(i) == Failure {
        return;
      }
      seen := log;
      run := Await(pid, between, start, run);
      SettledStays(seen, log, was, keys, answers, i + 1);
      if pid in flushes {
        hide SettledUpTo;
        seen := log;
        run := WaitForErase(pid, keys[i], was[keys[i]], start, run);
        SettledStays(seen, log, was, keys, answers, i + 1);
      }
    }

    /** The queued mutations come to their turns. */
    method Drain(ghost job: string, ghost value: string, ghost start: State, ghost before: seq<Event>) returns (ghost run: seq<Event>)
      requires Inv(Contents()) && Contents() == Run(start, before)
      modifies this
      ensures Contents() == Run(start, run) && Inv(Contents()) && old(log) <= log && queue == []
      ensures old(queue) == [Write(job, value)] ==>
                outbox == old(outbox)[job := value] && log == old(log) + [Stored(job, value)] && flushes == old(flushes)
    {
      hide Step, Run, Inv;
      run := before;
      while queue != []
        invariant Contents() == Run(start, run) && Inv(Contents()) && old(log) <= log
        invariant old(queue) == [Write(job, value)] ==>
                    Contents() == old(Contents()) || (queue == [] && outbox == old(outbox)[job := value]
                                                      && log == old(log) + [Stored(job, value)] && flushes == old(flushes))
        decreases Work(queue)
      {
        WorkShrinks(Contents());
        ghost var s := Contents();
        MutationIs(s);
        RunMutation();
        run := Stepped(start, run, s, Mutate);
      }
    }

    /** omaPostResult from beginning to end. A websend result changes nothing that is stored; any
        other is stored before the flush that may post it, and every result that waited stays
        secured. If nobody else is at work, what remains is what the flush could not settle. */
    method Deliver(pid: nat, job: string, value: string, completed: bool, order: map<string, string> -> seq<string>,
                   answers: nat -> Answer, others: nat -> seq<Event>) returns (ghost run: seq<Event>)
      requires Inv(Contents()) && (forall m :: Listing(m, order(m))) && forall n :: OfOthers(others(n), pid)
      modifies this
      ensures Contents() == Run(old(Contents()), run) && Inv(Contents())
      ensures forall j :: j in old(outbox) ==> Secured(Contents(), j)
      ensures OfWebsend(job) ==> outbox == old(outbox) && queue == old(queue) && flushes == old(flushes)
                                 && log == if completed then old(log) else old(log) + [Direct(job)]
      ensures !OfWebsend(job) && old(queue) == [] && old(flushes) == map[] && (forall n :: others(n) == []) ==>
                var stored := old(outbox)[job := value];
                var keys := order(stored);
                outbox == stored - (set i | 0 <= i < |keys| && answers(i) != Failure :: keys[i]) && Secured(Contents(), job)
    {
      OfWebsendIff(job);
      UnansweredIs(outbox[job := value], order(outbox[job := value]), answers);
      ghost var start, s := Contents(), Contents();
      NothingRuns(start);
      PostResult(job, value, completed);
      run := Stepped(start, [], s, Post(job, value, completed));
      if !Websend(job) {
        run := StoreAndFlush(pid, job, value, order, answers, others, start, run);
      }
      forall j | j in start.outbox ensures Secured(Contents(), j) {
        WaitingIsSecured(start, run, j);
      }
    }

    /** The rest of it, with the write in the queue. */
    method StoreAndFlush(pid: nat, job: string, value: string, order: map<string, string> -> seq<string>, answers: nat -> Answer,
                         others: nat -> seq<Event>, ghost start: State, ghost before: seq<Event>) returns (ghost run: seq<Event>)
      requires Inv(Contents()) && Contents() == Run(start, before)
      requires (forall m :: Listing(m, order(m))) && forall n :: OfOthers(others(n), pid)
      modifies this
      ensures Contents() == Run(start, run) && Inv(Contents())
      ensures old(queue) == [Write(job, value)] && old(flushes) == map[] && (forall n :: others(n) == []) ==>
                var stored := old(outbox)[job := value];
                outbox == Unanswered(stored, order(stored), answers, |order(stored)|) && Secured(Contents(), job)
    {
      UnansweredIs(outbox[job := value], order(outbox[job := value]), answers);
      hide Step, Run, Inv, OfOthers, Unanswered, Secured, Listing;
      run := Await(pid, others(0), start, before);
      run := Drain(job, value, start, run);
      var end;
      ghost var more;
      var later := (n: nat) => others(n + 1);
      end, more := Flush(pid, order(outbox), answers, later);
      RunAppend(start, run, more);
      run := run + more;
    }
  }

  /** How a flush ends: it joins one that is on its way, comes to its end, or is cut short by a
      storage call that rejects. */
  datatype FlushEnd = Joined | Finished | Broken

  /** Those of the first n keys that were answered with success or 400 are settled. */
  predicate SettledUpTo(log: seq<Entry>, outbox: map<string, string>, keys: seq<string>, answers: nat -> Answer, n: nat) {
    forall i :: 0 <= i < n && i < |keys| && keys[i] in outbox && answers(i) != Failure ==> Settled(keys[i], outbox[keys[i]]) in log
  }

  lemma NothingSettledYet(log: seq<Entry>, outbox: map<string, string>, keys: seq<string>, answers: nat -> Answer)
    ensures SettledUpTo(log, outbox, keys, answers, 0)
  {
  }

  lemma SettledStays(log: seq<Entry>, more: seq<Entry>, outbox: map<string, string>, keys: seq<string>, answers: nat -> Answer, n: nat)
    requires SettledUpTo(log, outbox, keys, answers, n) && log <= more
    ensures SettledUpTo(more, outbox, keys, answers, n)
  {
  }

  lemma SettledNext(log: seq<Entry>, more: seq<Entry>, outbox: map<string, string>, keys: seq<string>, answers: nat -> Answer, n: nat)
    requires SettledUpTo(log, outbox, keys, answers, n) && n < |keys| && keys[n] in outbox
    requires more == if answers(n) == Failure then log else log + [Settled(keys[n], outbox[keys[n]])]
    ensures SettledUpTo(more, outbox, keys, answers, n + 1)
  {
  }

  lemma AllUnanswered(outbox: map<string, string>, keys: seq<string>, answers: nat -> Answer)
    ensures Unanswered(outbox, keys, answers, 0) == outbox
  {
  }

  lemma ListedKeys(outbox: map<string, string>, keys: seq<string>)
    requires Listing(outbox, keys)
    ensures forall k :: k in keys ==> k in outbox
  {
    assert forall k :: k in keys ==> k in (set x | x in keys);
  }

  lemma PostIs(s: State, pid: nat, answer: Answer)
    ensures Step(s, FlushPost(pid, answer)) == FlushPostStep(s, pid, answer)
  {
  }

  lemma WaitingHasWork(s: State, pid: nat)
    requires Inv(s) && pid in s.flushes && s.flushes[pid].waiting
    ensures s.queue != []
  {
    assert WaitSound(s, pid);
  }

  lemma MutationIs(s: State)
    ensures Step(s, Mutate) == MutateStep(s)
  {
  }
}
