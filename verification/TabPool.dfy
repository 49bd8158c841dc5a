/** browser/tab_pool.py: a few tabs serve many tasks. The worker loops interleave at their
    awaits; a handler may succeed, raise, or be cancelled. */
module TabPool {
  import opened Basics

  /** Where a worker's loop is. A task is taken off the queue before the worker shows it. */
  datatype Phase =
    | Free                                // between two tasks
    | Taken(task: string)
    | Busy(task: string)
    | Waiting(task: string)               // its handler runs
    | Served(task: string)                // the handler returned
    | Raised(task: string, error: string) // the handler raised
    | Leaving(task: string)               // recorded; only the finally block is left
    | Gone                                // the loop ended on an empty queue
    | Cancelled                           // the loop was cancelled

  datatype State = State(phases: seq<Phase>, queue: seq<string>, completed: seq<string>, failed: map<string, string>,
                         failures: seq<string>, lost: seq<string>)

  datatype Event = Take(w: nat) | Show(w: nat) | Send(w: nat) | Return(w: nat) | Raise(w: nat, error: string)
                 | Record(w: nat) | Leave(w: nat) | Cancel(w: nat)

  function Idle(n: nat): (r: seq<Phase>)
    ensures |r| == n && forall i :: 0 <= i < n ==> r[i] == Free
  {
    if n == 0 then [] else Idle(n - 1) + [Free]
  }

  function Start(n: nat, tasks: seq<string>): State {
    State(Idle(n), tasks, [], map[], [], [])
  }

  /** The worker holds a task that is not recorded yet. */
  predicate Holds(p: Phase) {
    p.Taken? || p.Busy? || p.Waiting? || p.Served? || p.Raised?
  }

  function At(s: State, w: nat, p: Phase): State
    requires w < |s.phases|
  {
    s.(phases := s.phases[w := p])
  }

  function Step(s: State, e: Event): State {
    if e.w >= |s.phases| then s
    else
      var p := s.phases[e.w];
      match e
      case Take(w) =>
        if !p.Free? then s
        else if s.queue == [] then At(s, w, Gone)
        else At(s.(queue := s.queue[1..]), w, Taken(s.queue[0]))
      case Show(w) => if p.Taken? then At(s, w, Busy(p.task)) else s
      case Send(w) => if p.Busy? then At(s, w, Waiting(p.task)) else s
      case Return(w) => if p.Waiting? then At(s, w, Served(p.task)) else s
      case Raise(w, error) => if p.Waiting? then At(s, w, Raised(p.task, error)) else s
      case Record(w) =>
        if p.Served? then At(s.(completed := s.completed + [p.task]), w, Leaving(p.task))
        else if p.Raised? then
          At(s.(failed := s.failed[p.task := p.error], failures := s.failures + [p.task]), w, Leaving(p.task))
        else s
      case Leave(w) => if p.Leaving? then At(s, w, Free) else s
      case Cancel(w) =>
        if Holds(p) then At(s.(lost := s.lost + [p.task]), w, Cancelled)
        else if p.Leaving? then At(s, w, Cancelled)
        else s
  }

  function Run(s: State, events: seq<Event>): State
    decreases |events|
  {
    if events == [] then s else Run(Step(s, events[0]), events[1..])
  }

  // ---------------------------------------------------------------- nothing lost, nothing twice

  /** How often a task is in a list. */
  function Count(s: seq<string>, x: string): nat {
    if s == [] then 0 else Count(s[..|s| - 1], x) + if s[|s| - 1] == x then 1 else 0
  }

  lemma CountMore(s: seq<string>, y: string, x: string)
    ensures Count(s + [y], x) == Count(s, x) + if y == x then 1 else 0
  {
    assert (s + [y])[..|s|] == s;
  }

  lemma {:induction false} CountRest(s: seq<string>, x: string)
    requires s != []
    ensures Count(s, x) == Count(s[1..], x) + if s[0] == x then 1 else 0
    decreases |s|
  {
    if |s| > 1 {
      var front := s[..|s| - 1];
      CountRest(front, x);
      assert front[1..] == s[1..][..|s| - 2];
    }
  }

  function HeldCount(p: Phase, x: string): nat {
    if Holds(p) && p.task == x then 1 else 0
  }

  /** How many workers hold a task that is not recorded yet. */
  function InFlight(phases: seq<Phase>, x: string): nat {
    if phases == [] then 0 else InFlight(phases[..|phases| - 1], x) + HeldCount(phases[|phases| - 1], x)
  }

  lemma {:induction false} InFlightUpdate(phases: seq<Phase>, w: nat, p: Phase, x: string)
    requires w < |phases|
    ensures InFlight(phases[w := p], x) + HeldCount(phases[w], x) == InFlight(phases, x) + HeldCount(p, x)
    decreases |phases|
  {
    hide HeldCount;
    var front := phases[..|phases| - 1];
    if w == |phases| - 1 {
      assert phases[w := p][..|phases| - 1] == front;
    } else {
      assert phases[w := p][..|phases| - 1] == front[w := p];
      InFlightUpdate(front, w, p, x);
    }
  }

  /** How often a task is anywhere. */
  function Everywhere(s: State, x: string): nat {
    Count(s.queue, x) + InFlight(s.phases, x) + Count(s.completed, x) + Count(s.failures, x) + Count(s.lost, x)
  }

  lemma StepConserves(s: State, e: Event, x: string)
    ensures Everywhere(Step(s, e), x) == Everywhere(s, x) && |Step(s, e).phases| == |s.phases|
  {
    hide Count, InFlight;
    var t := Step(s, e);
    if t != s {
      InFlightUpdate(s.phases, e.w, t.phases[e.w], x);
      if s.queue != [] {
        CountRest(s.queue, x);
      }
      var p := s.phases[e.w];
      if Holds(p) {
        CountMore(s.completed, p.task, x);
        CountMore(s.failures, p.task, x);
        CountMore(s.lost, p.task, x);
      }
    }
  }

  /** The failure map is the failures by task, the last error winning. */
  predicate FailedSound(s: State) {
    s.failed.Keys == set x | x in s.failures
  }

  lemma FailedStaysSound(s: State, e: Event)
    requires FailedSound(s)
    ensures FailedSound(Step(s, e))
  {
  }

  lemma {:induction false} RunConserves(s: State, events: seq<Event>, x: string)
    ensures Everywhere(Run(s, events), x) == Everywhere(s, x) && |Run(s, events).phases| == |s.phases|
    ensures FailedSound(s) ==> FailedSound(Run(s, events))
    decreases |events|
  {
    hide Everywhere, Step, FailedSound;
    if events != [] {
      StepConserves(s, events[0], x);
      if FailedSound(s) {
        FailedStaysSound(s, events[0]);
      }
      RunConserves(Step(s, events[0]), events[1..], x);
    }
  }

  lemma {:induction false} NothingInFlight(phases: seq<Phase>, x: string)
    requires forall i :: 0 <= i < |phases| ==> !Holds(phases[i])
    ensures InFlight(phases, x) == 0
    decreases |phases|
  {
    if phases != [] {
      NothingInFlight(phases[..|phases| - 1], x);
    }
  }

  /** Over every interleaving of the workers, every submitted task is in the queue, in flight,
      completed, failed or lost to a cancellation, as often as it was submitted. */
  lemma TasksAreConserved(n: nat, tasks: seq<string>, events: seq<Event>, x: string)
    ensures var s := Run(Start(n, tasks), events);
      && Count(tasks, x) == Count(s.queue, x) + InFlight(s.phases, x) + Count(s.completed, x) + Count(s.failures, x) + Count(s.lost, x)
      && |s.phases| == n && FailedSound(s)
  {
    NothingInFlight(Idle(n), x);
    RunConserves(Start(n, tasks), events, x);
  }

  predicate Distinct(s: seq<string>) {
    forall i, j :: 0 <= i < j < |s| ==> s[i] != s[j]
  }

  lemma {:induction false} CountIs(s: seq<string>, x: string)
    ensures Count(s, x) > 0 <==> x in s
    ensures Distinct(s) ==> Count(s, x) <= 1
    decreases |s|
  {
    if s != [] {
      CountIs(s[..|s| - 1], x);
      assert s == s[..|s| - 1] + [s[|s| - 1]];
    }
  }

  lemma {:induction false} OnceIsDistinct(s: seq<string>)
    requires forall x :: Count(s, x) <= 1
    ensures Distinct(s)
    decreases |s|
  {
    if s != [] {
      var front, last := s[..|s| - 1], s[|s| - 1];
      assert s == front + [last];
      forall x ensures Count(front, x) <= 1 {
        CountMore(front, last, x);
      }
      OnceIsDistinct(front);
      CountMore(front, last, last);
      CountIs(front, last);
      forall i, j | 0 <= i < j < |s| ensures s[i] != s[j] {
        assert front[i] == s[i] && (j < |front| ==> front[j] == s[j]);
      }
    }
  }

  /** With distinct tasks the five places partition them. */
  lemma DistinctTasksPartition(n: nat, tasks: seq<string>, events: seq<Event>, x: string)
    requires Distinct(tasks) && x in tasks
    ensures var s := Run(Start(n, tasks), events);
      Count(s.queue, x) + InFlight(s.phases, x) + Count(s.completed, x) + Count(s.failures, x) + Count(s.lost, x) == 1
  {
    TasksAreConserved(n, tasks, events, x);
    CountIs(tasks, x);
  }

  // ---------------------------------------------------------------- the end of a run

  /** Every loop has ended on the empty queue. */
  predicate Ended(s: State) {
    s.queue == [] && forall i :: 0 <= i < |s.phases| ==> s.phases[i].Gone?
  }

  /** The two checks of run_all before it returns. */
  predicate ReturnsNormally(s: State, tasks: seq<string>) {
    |s.completed| + |s.failed| == |tasks| && |set x | x in s.completed| == |s.completed|
  }

  lemma DistinctMore(front: seq<string>, last: string)
    ensures Distinct(front + [last]) <==> Distinct(front) && last !in front
  {
    var s := front + [last];
    if Distinct(s) {
      assert forall i, j :: 0 <= i < j < |front| ==> s[i] == front[i] && s[j] == front[j];
      assert forall i :: 0 <= i < |front| ==> s[i] == front[i] && s[|front|] == last;
    }
  }

  lemma {:induction false} SetSize(s: seq<string>)
    ensures |set x | x in s| <= |s|
    ensures |set x | x in s| == |s| <==> Distinct(s)
    decreases |s|
  {
    if s != [] {
      hide Distinct;
      var front, last := s[..|s| - 1], s[|s| - 1];
      SetSize(front);
      assert s == front + [last];
      DistinctMore(front, last);
      var before, after := set x | x in front, set x | x in s;
      assert after == before + {last};
      if last in front {
        assert after == before;
      }
    }
  }

  lemma {:induction false} SizeByCounts(s: seq<string>, a: seq<string>, b: seq<string>)
    requires forall x :: Count(s, x) == Count(a, x) + Count(b, x)
    ensures |s| == |a| + |b|
    decreases |a| + |b|, |b|
  {
    if a != [] {
      var last := a[|a| - 1];
      CountIs(a, last);
      CountIs(s, last);
      var i :| 0 <= i < |s| && s[i] == last;
      var rest := s[..i] + s[i + 1..];
      forall x ensures Count(rest, x) == Count(a[..|a| - 1], x) + Count(b, x) {
        CountWithout(s, i, x);
      }
      SizeByCounts(rest, a[..|a| - 1], b);
    } else if b != [] {
      forall x ensures Count(s, x) == Count(b, x) + Count(a, x) {
      }
      SizeByCounts(s, b, a);
    } else if s != [] {
      CountIs(s, s[0]);
    }
  }

  lemma {:induction false} CountWithout(s: seq<string>, i: nat, x: string)
    requires i < |s|
    ensures Count(s, x) == Count(s[..i] + s[i + 1..], x) + if s[i] == x then 1 else 0
    decreases |s|
  {
    var rest := s[..i] + s[i + 1..];
    if i == |s| - 1 {
      assert rest == s[..i];
    } else {
      var front := s[..|s| - 1];
      CountWithout(front, i, x);
      assert rest[..|rest| - 1] == front[..i] + front[i + 1..];
    }
  }

  lemma EndedCounts(n: nat, tasks: seq<string>, events: seq<Event>, x: string)
    requires Ended(Run(Start(n, tasks), events)) && Run(Start(n, tasks), events).lost == []
    ensures var s := Run(Start(n, tasks), events);
      Count(tasks, x) == Count(s.completed, x) + Count(s.failures, x) && FailedSound(s)
  {
    TasksAreConserved(n, tasks, events, x);
    NothingInFlight(Run(Start(n, tasks), events).phases, x);
  }

  /** What the two checks of run_all come to, once every loop has ended. */
  lemma ChecksMeanDistinct(n: nat, tasks: seq<string>, events: seq<Event>)
    requires Ended(Run(Start(n, tasks), events)) && Run(Start(n, tasks), events).lost == []
    ensures var s := Run(Start(n, tasks), events);
      ReturnsNormally(s, tasks) <==> Distinct(s.completed) && Distinct(s.failures)
  {
    hide Run, Ended;
    var s := Run(Start(n, tasks), events);
    forall x ensures Count(tasks, x) == Count(s.completed, x) + Count(s.failures, x) {
      EndedCounts(n, tasks, events, x);
    }
    EndedCounts(n, tasks, events, "");
    SizeByCounts(tasks, s.completed, s.failures);
    SetSize(s.completed);
    SetSize(s.failures);
    assert |s.failed| == |s.failed.Keys|;
  }

  /** A run of n workers on the tasks that went to its end without a cancellation. */
  predicate Complete(n: nat, tasks: seq<string>, events: seq<Event>) {
    Ended(Run(Start(n, tasks), events)) && Run(Start(n, tasks), events).lost == []
  }

  /** The run returns, and what it returns partitions the tasks into completed and failed. */
  ghost predicate Partitions(s: State, tasks: seq<string>) {
    && ReturnsNormally(s, tasks)
    && forall x :: x in tasks <==> (x in s.completed && x !in s.failed) || (x !in s.completed && x in s.failed)
  }

  lemma DistinctTasksReturn(n: nat, tasks: seq<string>, events: seq<Event>)
    requires Distinct(tasks) && Complete(n, tasks, events)
    ensures Partitions(Run(Start(n, tasks), events), tasks)
  {
    hide Run, Ended;
    var s := Run(Start(n, tasks), events);
    EndedCounts(n, tasks, events, "");
    forall x
      ensures Count(s.completed, x) + Count(s.failures, x) <= 1
      ensures x in tasks <==> (x in s.completed && x !in s.failed) || (x !in s.completed && x in s.failed)
    {
      EndedCounts(n, tasks, events, x);
      CountIs(tasks, x);
      CountIs(s.completed, x);
      CountIs(s.failures, x);
      assert x in s.failed <==> x in s.failed.Keys;
    }
    OnceIsDistinct(s.completed);
    OnceIsDistinct(s.failures);
    ChecksMeanDistinct(n, tasks, events);
  }

  // ---------------------------------------------------------------- tasks submitted twice

  lemma {:induction false} RunAppend(s: State, a: seq<Event>, b: seq<Event>)
    ensures Run(s, a + b) == Run(Run(s, a), b)
    decreases |a|
  {
    hide Step;
    if a == [] {
      assert a + b == b;
    } else {
      assert (a + b)[0] == a[0] && (a + b)[1..] == a[1..] + b;
      RunAppend(Step(s, a[0]), a[1..], b);
    }
  }

  lemma NothingRuns(s: State)
    ensures Run(s, []) == s
  {
  }

  lemma RunOne(s: State, e: Event)
    ensures Run(s, [e]) == Step(s, e)
  {
    assert [e][1..] == [];
  }

  /** The first worker serves one task from beginning to end. */
  function Serving(good: bool): seq<Event> {
    [Take(0)] + ([Show(0)] + ([Send(0)] + ([if good then Return(0) else Raise(0, "error")] + ([Record(0)] + [Leave(0)]))))
  }

  function Served1(s: State, good: bool): State
    requires s.queue != []
  {
    var t := s.(queue := s.queue[1..]);
    if good then t.(completed := s.completed + [s.queue[0]])
    else t.(failed := s.failed[s.queue[0] := "error"], failures := s.failures + [s.queue[0]])
  }

  lemma RunCons(s: State, e: Event, rest: seq<Event>)
    ensures Run(s, [e] + rest) == Run(Step(s, e), rest)
  {
    assert ([e] + rest)[1..] == rest;
  }

  lemma ServingSends(s: State, task: string)
    requires s.phases != [] && s.phases[0].Free? && s.queue != [] && s.queue[0] == task
    ensures var t1 := At(s.(queue := s.queue[1..]), 0, Taken(task));
      && Step(s, Take(0)) == t1 && Step(t1, Show(0)) == At(t1, 0, Busy(task))
      && Step(At(t1, 0, Busy(task)), Send(0)) == At(t1, 0, Waiting(task))
  {
    var t1 := At(s.(queue := s.queue[1..]), 0, Taken(task));
    assert At(t1, 0, Busy(task)).phases[0 := Waiting(task)] == At(t1, 0, Waiting(task)).phases;
  }

  lemma ServingEnds(s: State, task: string, good: bool)
    requires s.phases != [] && s.phases[0].Free? && s.queue != [] && s.queue[0] == task
    ensures var t1 := At(s.(queue := s.queue[1..]), 0, Taken(task));
      var t4 := At(t1, 0, if good then Served(task) else Raised(task, "error"));
      var t5 := At(Served1(s, good), 0, Leaving(task));
      && Step(At(t1, 0, Waiting(task)), if good then Return(0) else Raise(0, "error")) == t4
      && Step(t4, Record(0)) == t5 && Step(t5, Leave(0)) == Served1(s, good)
  {
    var t1 := At(s.(queue := s.queue[1..]), 0, Taken(task));
    var t4 := At(t1, 0, if good then Served(task) else Raised(task, "error"));
    var t5 := At(Served1(s, good), 0, Leaving(task));
    assert At(t1, 0, Waiting(task)).phases[0 := t4.phases[0]] == t4.phases;
    assert t4.phases[0 := Leaving(task)] == t5.phases && t5.phases[0 := Free] == s.phases;
  }

  lemma Serves(s: State, good: bool)
    requires s.phases != [] && s.phases[0].Free? && s.queue != []
    ensures Run(s, Serving(good)) == Served1(s, good)
  {
    var task := s.queue[0];
    var t1 := At(s.(queue := s.queue[1..]), 0, Taken(task));
    var t3 := At(t1, 0, Waiting(task));
    var t4 := At(t1, 0, if good then Served(task) else Raised(task, "error"));
    var t5 := At(Served1(s, good), 0, Leaving(task));
    var send, end, record, leave := Send(0), if good then Return(0) else Raise(0, "error"), Record(0), Leave(0);
    ServingSends(s, task);
    ServingEnds(s, task, good);
    hide Run, Step;
    RunCons(s, Take(0), [Show(0)] + ([send] + ([end] + ([record] + [leave]))));
    RunCons(t1, Show(0), [send] + ([end] + ([record] + [leave])));
    RunCons(At(t1, 0, Busy(task)), send, [end] + ([record] + [leave]));
    RunCons(t3, end, [record] + [leave]);
    RunCons(t4, record, [leave]);
    RunOne(t5, leave);
  }

  /** The tasks whose outcome is the given one. */
  function Chosen(tasks: seq<string>, outcomes: seq<bool>, good: bool): seq<string>
    requires |outcomes| == |tasks|
  {
    if tasks == [] then []
    else (if outcomes[0] == good then [tasks[0]] else []) + Chosen(tasks[1..], outcomes[1..], good)
  }

  function ServingAll(outcomes: seq<bool>): seq<Event> {
    if outcomes == [] then [] else Serving(outcomes[0]) + ServingAll(outcomes[1..])
  }

  /** The first worker alone serves the whole queue, with these outcomes. */
  lemma {:induction false} ServesAll(s: State, outcomes: seq<bool>)
    requires s.phases != [] && s.phases[0].Free? && |outcomes| == |s.queue|
    ensures var t := Run(s, ServingAll(outcomes));
      && t.phases == s.phases && t.queue == [] && t.lost == s.lost
      && t.completed == s.completed + Chosen(s.queue, outcomes, true)
      && t.failures == s.failures + Chosen(s.queue, outcomes, false)
    decreases |outcomes|
  {
    hide Step, Serving;
    if outcomes != [] {
      hide Run;
      var t := Served1(s, outcomes[0]);
      Serves(s, outcomes[0]);
      ServesAll(t, outcomes[1..]);
      RunAppend(s, Serving(outcomes[0]), ServingAll(outcomes[1..]));
      ConcatAssoc(s.completed, [s.queue[0]], Chosen(s.queue[1..], outcomes[1..], true));
      ConcatAssoc(s.failures, [s.queue[0]], Chosen(s.queue[1..], outcomes[1..], false));
    }
  }

  /** Each worker finds the queue empty. */
  function Closing(n: nat): seq<Event> {
    if n == 0 then [] else Closing(n - 1) + [Take(n - 1)]
  }

  lemma {:induction false} Closes(s: State, k: nat)
    requires k <= |s.phases| && s.queue == [] && forall i :: 0 <= i < |s.phases| ==> s.phases[i].Free?
    ensures var t := Run(s, Closing(k));
      && t == s.(phases := t.phases) && |t.phases| == |s.phases|
      && forall i :: 0 <= i < |s.phases| ==> if i < k then t.phases[i].Gone? else t.phases[i].Free?
    decreases k
  {
    if k > 0 {
      Closes(s, k - 1);
      RunAppend(s, Closing(k - 1), [Take(k - 1)]);
      RunOne(Run(s, Closing(k - 1)), Take(k - 1));
    }
  }

  /** For any outcomes of the handlers there is a run with exactly these. */
  lemma AnyOutcomes(n: nat, tasks: seq<string>, outcomes: seq<bool>) returns (events: seq<Event>)
    requires 1 <= n && |outcomes| == |tasks|
    ensures Complete(n, tasks, events)
    ensures Run(Start(n, tasks), events).completed == Chosen(tasks, outcomes, true)
    ensures Run(Start(n, tasks), events).failures == Chosen(tasks, outcomes, false)
  {
    var s := Start(n, tasks);
    events := ServingAll(outcomes) + Closing(n);
    ServesAll(s, outcomes);
    Closes(Run(s, ServingAll(outcomes)), n);
    RunAppend(s, ServingAll(outcomes), Closing(n));
    assert s.completed + Chosen(tasks, outcomes, true) == Chosen(tasks, outcomes, true);
    assert s.failures + Chosen(tasks, outcomes, false) == Chosen(tasks, outcomes, false);
  }

  function AllGood(n: nat): (r: seq<bool>)
    ensures |r| == n
  {
    seq(n, _ => true)
  }

  lemma {:induction false} AllAreChosen(tasks: seq<string>)
    ensures Chosen(tasks, AllGood(|tasks|), true) == tasks
    decreases |tasks|
  {
    if tasks != [] {
      assert AllGood(|tasks|)[1..] == AllGood(|tasks| - 1);
      AllAreChosen(tasks[1..]);
    }
  }

  /** When every run that is not cancelled returns a partition of the tasks: exactly when they
      are distinct. Otherwise the run in which every handler succeeds raises. */
  lemma PartitionsIff(n: nat, tasks: seq<string>)
    requires 1 <= n
    ensures (forall events :: Complete(n, tasks, events) ==> Partitions(Run(Start(n, tasks), events), tasks)) <==> Distinct(tasks)
  {
    if Distinct(tasks) {
      forall events | Complete(n, tasks, events) ensures Partitions(Run(Start(n, tasks), events), tasks) {
        DistinctTasksReturn(n, tasks, events);
      }
    } else {
      var events := RepeatedTaskRaises(n, tasks);
    }
  }

  lemma RepeatedTaskRaises(n: nat, tasks: seq<string>) returns (events: seq<Event>)
    requires 1 <= n && !Distinct(tasks)
    ensures Complete(n, tasks, events) && !ReturnsNormally(Run(Start(n, tasks), events), tasks)
  {
    events := AnyOutcomes(n, tasks, AllGood(|tasks|));
    AllAreChosen(tasks);
    SetSize(tasks);
  }

  /** The outcomes in which a task succeeds the first time and fails from then on. */
  function Firsts(seen: set<string>, tasks: seq<string>): (r: seq<bool>)
    ensures |r| == |tasks|
    decreases |tasks|
  {
    if tasks == [] then [] else [tasks[0] !in seen] + Firsts(seen + {tasks[0]}, tasks[1..])
  }

  lemma {:induction false} FirstsCount(seen: set<string>, tasks: seq<string>, x: string)
    ensures Count(Chosen(tasks, Firsts(seen, tasks), true), x) == if x in seen || Count(tasks, x) == 0 then 0 else 1
    ensures Count(Chosen(tasks, Firsts(seen, tasks), true), x) + Count(Chosen(tasks, Firsts(seen, tasks), false), x) == Count(tasks, x)
    decreases |tasks|
  {
    if tasks != [] {
      var rest, more := tasks[1..], seen + {tasks[0]};
      assert Firsts(seen, tasks)[1..] == Firsts(more, rest);
      FirstsCount(more, rest, x);
      CountRest(tasks, x);
      CountFirst(tasks[0], Chosen(rest, Firsts(more, rest), true), x);
      CountFirst(tasks[0], Chosen(rest, Firsts(more, rest), false), x);
      hide Count;
      assert [] + Chosen(rest, Firsts(more, rest), true) == Chosen(rest, Firsts(more, rest), true);
      assert [] + Chosen(rest, Firsts(more, rest), false) == Chosen(rest, Firsts(more, rest), false);
    }
  }

  lemma CountFirst(y: string, s: seq<string>, x: string)
    ensures Count([y] + s, x) == Count(s, x) + if y == x then 1 else 0
  {
    CountRest([y] + s, x);
    assert ([y] + s)[1..] == s;
  }

  ghost predicate AtMostTwice(tasks: seq<string>) {
    forall x :: Count(tasks, x) <= 2
  }

  /** Without cancellation, a run that returns has been given no task three times. */
  lemma ReturnMeansAtMostTwice(n: nat, tasks: seq<string>, events: seq<Event>)
    requires Complete(n, tasks, events) && ReturnsNormally(Run(Start(n, tasks), events), tasks)
    ensures AtMostTwice(tasks)
  {
    hide Run, Ended, ReturnsNormally;
    var s := Run(Start(n, tasks), events);
    ChecksMeanDistinct(n, tasks, events);
    forall x ensures Count(tasks, x) <= 2 {
      EndedCounts(n, tasks, events, x);
      CountIs(s.completed, x);
      CountIs(s.failures, x);
    }
  }

  lemma AtMostTwiceCanReturn(n: nat, tasks: seq<string>) returns (events: seq<Event>)
    requires 1 <= n && AtMostTwice(tasks)
    ensures Complete(n, tasks, events) && ReturnsNormally(Run(Start(n, tasks), events), tasks)
    ensures forall x :: Count(tasks, x) == 2 ==> x in Run(Start(n, tasks), events).completed && x in Run(Start(n, tasks), events).failed
  {
    events := AnyOutcomes(n, tasks, Firsts({}, tasks));
    hide Run, Ended, ReturnsNormally;
    var s := Run(Start(n, tasks), events);
    EndedCounts(n, tasks, events, "");
    forall x
      ensures Count(s.completed, x) <= 1 && Count(s.failures, x) <= 1
      ensures Count(tasks, x) == 2 ==> x in s.completed && x in s.failed
    {
      FirstsCount({}, tasks, x);
      CountIs(s.completed, x);
      CountIs(s.failures, x);
      assert x in s.failed <==> x in s.failed.Keys;
    }
    OnceIsDistinct(s.completed);
    OnceIsDistinct(s.failures);
    ChecksMeanDistinct(n, tasks, events);
  }

  predicate ReturnsFrom(n: nat, tasks: seq<string>, events: seq<Event>) {
    Complete(n, tasks, events) && ReturnsNormally(Run(Start(n, tasks), events), tasks)
  }

  /** When some run returns at all: exactly when no task is submitted more than twice. */
  lemma CanReturnIff(n: nat, tasks: seq<string>)
    requires 1 <= n
    ensures (exists events :: ReturnsFrom(n, tasks, events)) <==> AtMostTwice(tasks)
  {
    if AtMostTwice(tasks) {
      var events := AtMostTwiceCanReturn(n, tasks);
      assert ReturnsFrom(n, tasks, events);
    }
    if events :| ReturnsFrom(n, tasks, events) {
      ReturnMeansAtMostTwice(n, tasks, events);
    }
  }

  predicate ReportsBothWays(n: nat, tasks: seq<string>, events: seq<Event>, x: string) {
    ReturnsFrom(n, tasks, events) && x in Run(Start(n, tasks), events).completed && x in Run(Start(n, tasks), events).failed
  }

  /** When some run returns a task both as completed and as failed: exactly when it is
      submitted twice and none more often. */
  lemma ReportedBothWaysIff(n: nat, tasks: seq<string>, x: string)
    requires 1 <= n
    ensures (exists events :: ReportsBothWays(n, tasks, events, x)) <==> AtMostTwice(tasks) && Count(tasks, x) == 2
  {
    if AtMostTwice(tasks) && Count(tasks, x) == 2 {
      var events := AtMostTwiceCanReturn(n, tasks);
      assert ReportsBothWays(n, tasks, events, x);
    }
    if events :| ReportsBothWays(n, tasks, events, x) {
      ReturnMeansAtMostTwice(n, tasks, events);
      var s := Run(Start(n, tasks), events);
      EndedCounts(n, tasks, events, x);
      CountIs(s.completed, x);
      CountIs(s.failures, x);
      assert x in s.failed.Keys;
    }
  }

  // ---------------------------------------------------------------- the pool

  class TabPool {
    const minTabs: nat
    const maxTabs: nat
    var phases: seq<Phase>            // self.workers
    var queue: seq<string>
    var completed: seq<string>
    var failed: map<string, string>
    ghost var failures: seq<string>
    ghost var lost: seq<string>

    ghost predicate Valid()
      reads this
    {
      1 <= minTabs <= maxTabs && minTabs <= |phases| <= maxTabs
    }

    ghost function Pool(): State
      reads this
    {
      State(phases, queue, completed, failed, failures, lost)
    }

    constructor (min: nat, max: nat)
      requires 1 <= min <= max
      ensures Valid() && minTabs == min && maxTabs == max && phases == Idle(min)
    {
      minTabs, maxTabs := min, max;
      phases, queue, completed, failed, failures, lost := Idle(min), [], [], map[], [], [];
    }

    /** The set-up of run_all: the queue is filled, every worker starts a new loop, and the pool
        grows while tasks outnumber its workers, up to its bound. */
    method Begin(tasks: seq<string>)
      requires Valid()
      modifies this
      ensures Valid() && Pool() == Start(|phases|, tasks)
      ensures queue == tasks && completed == [] && failed == map[] && failures == [] && lost == []
      ensures forall i :: 0 <= i < |phases| ==> phases[i] == Free
      ensures |phases| == if |old(phases)| < (if maxTabs < |tasks| then maxTabs else |tasks|)
                          then (if maxTabs < |tasks| then maxTabs else |tasks|) else |old(phases)|
    {
      queue, completed, failed, failures, lost := tasks, [], map[], [], [];
      phases := Idle(|phases|);
      var bound := if maxTabs < |tasks| then maxTabs else |tasks|;
      while |phases| < bound
        invariant phases == Idle(|phases|) && |phases| >= |old(phases)|
        invariant |phases| == |old(phases)| || |phases| <= bound
        invariant queue == tasks && completed == [] && failed == map[] && failures == [] && lost == []
      {
        phases := phases + [Free];
      }
    }

    /** queue.get_nowait: an empty queue ends the loop of the worker. */
    method TakeNext(w: nat) returns (task: Option<string>)
      requires w < |phases| && phases[w].Free?
      modifies this
      ensures Pool() == Step(old(Pool()), Take(w)) && |phases| == |old(phases)|
      ensures task == if old(queue) == [] then None else Some(old(queue)[0])
      ensures Pool() == if old(queue) == [] then old(Pool()).(phases := old(phases)[w := Gone])
                        else old(Pool()).(phases := old(phases)[w := Taken(old(queue)[0])], queue := old(queue)[1..])
    {
      if queue == [] {
        phases := phases[w := Gone];
        return None;
      }
      task := Some(queue[0]);
      phases := phases[w := Taken(queue[0])];
      queue := queue[1..];
    }

    /** The two state changes under the lock before the handler runs. */
    method Advance(w: nat)
      requires w < |phases| && (phases[w].Taken? || phases[w].Busy?)
      modifies this`phases
      ensures Pool() == Step(old(Pool()), if old(phases)[w].Taken? then Show(w) else Send(w)) && |phases| == |old(phases)|
      ensures phases == old(phases)[w := if old(phases)[w].Taken? then Busy(old(phases)[w].task) else Waiting(old(phases)[w].task)]
    {
      phases := phases[w := if phases[w].Taken? then Busy(phases[w].task) else Waiting(phases[w].task)];
    }

    /** The outcome of the handler reaches the lists. */
    method RecordOutcome(w: nat)
      requires w < |phases| && (phases[w].Served? || phases[w].Raised?)
      modifies this
      ensures Pool() == Step(old(Pool()), Record(w)) && |phases| == |old(phases)|
      ensures phases == old(phases)[w := Leaving(old(phases)[w].task)] && queue == old(queue) && lost == old(lost)
      ensures old(phases)[w].Served? ==> completed == old(completed) + [old(phases)[w].task] && failed == old(failed)
      ensures old(phases)[w].Raised? ==>
        completed == old(completed) && failed == old(failed)[old(phases)[w].task := old(phases)[w].error]
    {
      var p := phases[w];
      if p.Served? {
        completed := completed + [p.task];
      } else {
        failed := failed[p.task := p.error];
        failures := failures + [p.task];
      }
      phases := phases[w := Leaving(p.task)];
    }

    /** The finally block. */
    method Release(w: nat)
      requires w < |phases| && phases[w].Leaving?
      modifies this`phases
      ensures Pool() == Step(old(Pool()), Leave(w)) && |phases| == |old(phases)|
      ensures phases == old(phases)[w := Free]
    {
      phases := phases[w := Free];
    }

    /** The checks before run_all returns; an error says which one failed. */
    method Finish(tasks: seq<string>) returns (r: Result<(seq<string>, map<string, string>), string>)
      ensures r.Ok? <==> ReturnsNormally(Pool(), tasks)
      ensures r.Ok? <==> |completed| + |failed| == |tasks| && Distinct(completed)
      ensures r.Ok? ==> r.value == (completed, failed)
      ensures r == Err("lost") <==> |completed| + |failed| != |tasks|
    {
      SetSize(completed);
      if |completed| + |failed| != |tasks| {
        return Err("lost");
      }
      if |set x | x in completed| != |completed| {
        return Err("duplicate");
      }
      return Ok((completed, failed));
    }

    /** One turn of the event loop: whichever worker is next goes on to its next await. */
    method Play(e: Event)
      modifies this
      ensures Pool() == Step(old(Pool()), e) && |phases| == |old(phases)|
    {
      if e.w < |phases| {
        var p := phases[e.w];
        if e.Take? && p.Free? {
          var task := TakeNext(e.w);
        } else if (e.Show? && p.Taken?) || (e.Send? && p.Busy?) {
          Advance(e.w);
        } else if e.Return? && p.Waiting? {
          phases := phases[e.w := Served(p.task)];
        } else if e.Raise? && p.Waiting? {
          phases := phases[e.w := Raised(p.task, e.error)];
        } else if e.Record? && (p.Served? || p.Raised?) {
          RecordOutcome(e.w);
        } else if e.Leave? && p.Leaving? {
          Release(e.w);
        } else if e.Cancel? && (Holds(p) || p.Leaving?) {
          lost := if Holds(p) then lost + [p.task] else lost;
          phases := phases[e.w := Cancelled];
        }
      }
    }

    /** The size the pool has for so many tasks. */
    function Size(count: nat): nat
      reads this
    {
      var bound := if maxTabs < count then maxTabs else count;
      if |phases| < bound then bound else |phases|
    }

    /** run_all without cancellation, with the turns the event loop gives its workers. Distinct
        tasks are returned as a partition, and a task submitted three times is an error. */
    method RunAll(tasks: seq<string>, turns: seq<Event>) returns (r: Result<(seq<string>, map<string, string>), string>)
      requires Valid() && Complete(Size(|tasks|), tasks, turns)
      modifies this
      ensures Valid() && Pool() == Run(Start(old(Size(|tasks|)), tasks), turns)
      ensures r.Ok? <==> ReturnsNormally(Pool(), tasks)
      ensures r.Ok? ==> r.value == (completed, failed) && AtMostTwice(tasks)
      ensures Distinct(tasks) ==> r.Ok? && Partitions(Pool(), tasks)
    {
      hide Step, Run, Distinct, Ended, ReturnsNormally, Start;
      ghost var n := Size(|tasks|);
      Begin(tasks);
      ghost var start := Start(n, tasks);
      assert turns[..0] == [];
      NothingRuns(start);
      for i := 0 to |turns|
        invariant Valid() && Pool() == Run(start, turns[..i])
      {
        ghost var s := Pool();
        Play(turns[i]);
        assert turns[..i + 1] == turns[..i] + [turns[i]];
        RunAppend(start, turns[..i], [turns[i]]);
        RunOne(s, turns[i]);
      }
      assert turns[..|turns|] == turns;
      r := Finish(tasks);
      if r.Ok? {
        ReturnMeansAtMostTwice(n, tasks, turns);
      }
      if Distinct(tasks) {
        DistinctTasksReturn(n, tasks, turns);
      }
    }
  }
}
