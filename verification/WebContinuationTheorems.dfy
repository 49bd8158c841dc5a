/** What a Web continuation promises, over all runs. */
module WebContinuationTheorems {
  import opened Basics
  import opened WebContinuation
  import opened WebContinuationSafety

  /** A transfer is published only if it stands on its receipt. */
  lemma PublishedStandsOnItsReceipt(events: seq<Event>, id: ContinuationId)
    ensures var s := Run(Init, events); id in s.transfers && s.transfers[id].stage == Published ==> StandsOnReceipt(s, id)
  {
    InitIsSound();
    RunKeepsInv(Init, events);
    var s := Run(Init, events);
    if id in s.transfers && s.transfers[id].stage == Published {
      PublishedStands(s, id);
    }
  }

  /** An allocation is published only with the transfer that was claimed from it. */
  lemma PublishedAllocationHasItsTransfer(events: seq<Event>, x: string)
    ensures var s := Run(Init, events);
      x in s.allocations && s.allocations[x].state == AllocationPublished ==>
        var id := ClaimId(s.allocations[x]);
        id in s.transfers && s.transfers[id].stage == Published && Agrees(id, s.transfers[id], s.allocations[x])
  {
    InitIsSound();
    RunKeepsInv(Init, events);
    var s := Run(Init, events);
    if x in s.allocations && s.allocations[x].state == AllocationPublished {
      AllocationFact(s, x);
      TransferFact(s, ClaimId(s.allocations[x]));
    }
  }

  /** Where a job was submitted to the relay. */
  predicate SubmittedAt(log: seq<Audit>, i: int, job: JobId) {
    0 <= i < |log| && log[i] == Submitted(job)
  }

  lemma SubmittedSomewhere(log: seq<Audit>, job: JobId)
    requires Submitted(job) in log
    ensures exists i :: SubmittedAt(log, i, job)
  {
    var i :| 0 <= i < |log| && log[i] == Submitted(job);
    assert SubmittedAt(log, i, job);
  }

  lemma SubmittedNowhereElse(s: State, job: JobId)
    requires Inv(s)
    ensures forall i, j :: SubmittedAt(s.log, i, job) && SubmittedAt(s.log, j, job) ==> i == j
  {
    LogFact(s);
    hide Inv;
  }

  /** A continuation has no other job than its transfer's, and an allocation no other than its
      own: a job of the relay that is derived from one carries that row's message, and over all
      replays, crashes and interleavings the relay was given it exactly once. */
  lemma OneJobPerRow(events: seq<Event>, task: TaskId)
    ensures var s := Run(Init, events);
      JobFor(task) in s.jobs ==>
        && (exists i :: SubmittedAt(s.log, i, JobFor(task)))
        && (forall i, j :: SubmittedAt(s.log, i, JobFor(task)) && SubmittedAt(s.log, j, JobFor(task)) ==> i == j)
        && match task
        case Continuation(id) => id in s.transfers && s.transfers[id].job == JobFor(task)
                                 && s.jobs[JobFor(task)].prompt == s.transfers[id].prompt
                                 && s.jobs[JobFor(task)].target == Some(s.transfers[id].target)
        case Target(x) => x in s.allocations && s.allocations[x].job == JobFor(task)
                          && s.jobs[JobFor(task)].prompt == s.allocations[x].prompt && s.jobs[JobFor(task)].target.None?
  {
    hide Run, Inv, Grows, SubmittedOnce, SubmittedAt;
    InitIsSound();
    RunKeepsInv(Init, events);
    var s := Run(Init, events);
    if JobFor(task) in s.jobs {
      JobFact(s, JobFor(task));
      SubmittedSomewhere(s.log, JobFor(task));
      SubmittedNowhereElse(s, JobFor(task));
      if task.Target? {
        AllocationFact(s, task.allocation);
      }
    }
  }

  /** An allocation and a transfer that share a job agree on everything they both record, and
      no two transfers share a job. */
  lemma SharedJobMeansAgreement(events: seq<Event>, id: ContinuationId, x: string, other: ContinuationId)
    ensures var s := Run(Init, events);
      id in s.transfers ==>
        && (x in s.allocations && s.transfers[id].job == s.allocations[x].job ==> Agrees(id, s.transfers[id], s.allocations[x]))
        && (other in s.transfers && s.transfers[other].job == s.transfers[id].job ==> other == id)
  {
    InitIsSound();
    RunKeepsInv(Init, events);
    var s := Run(Init, events);
    if id in s.transfers {
      TransferFact(s, id);
      if x in s.allocations {
        AllocationFact(s, x);
      }
      if other in s.transfers {
        TransferFact(s, other);
      }
    }
  }

  /** What a run has published, committed or received it keeps: rows keep their identity, a
      published transfer stays published, a committed binding committed, a receipt the same. */
  lemma PublicationIsFinal(events: seq<Event>, later: seq<Event>, id: ContinuationId)
    ensures var s := Run(Init, events);
      id in s.transfers && s.transfers[id].stage == Published ==>
        var u := Run(s, later);
        && id in u.transfers && u.transfers[id] == s.transfers[id]
        && id in s.core && id in u.core && u.core[id] == s.core[id]
        && ReceiptOf(u, u.transfers[id].job) == ReceiptOf(s, s.transfers[id].job)
  {
    InitIsSound();
    RunKeepsInv(Init, events);
    var s := Run(Init, events);
    if id in s.transfers && s.transfers[id].stage == Published {
      TransferFact(s, id);
      RunKeepsInv(s, later);
      assert TransferKept(s, Run(s, later), id) && CoreKept(s, Run(s, later), id);
      ReceiptKept(s, Run(s, later), s.transfers[id].job);
    }
  }

  // ---------------------------------------------------------------- allocation identifiers

  predicate NoBar(s: string) {
    '|' !in s
  }

  lemma SplitAtBar(a: string, x: string, b: string, y: string)
    requires NoBar(a) && NoBar(b) && a + "|" + x == b + "|" + y
    ensures a == b && x == y
  {
    var left, right := a + "|" + x, b + "|" + y;
    assert left[|a|] == '|' && right[|b|] == '|';
    assert |a| == |b|;
    assert left[..|a|] == a && right[..|a|] == b;
    assert left[|a| + 1..] == x && right[|a| + 1..] == y;
  }

  /** Joining with bars tells requests apart whatever their keys, as long as owner, run and chat
      contain no bar. */
  lemma AllocationIdsTellApart(o: string, r: string, c: string, k: string, o': string, r': string, c': string, k': string)
    requires NoBar(o) && NoBar(r) && NoBar(c) && NoBar(o') && NoBar(r') && NoBar(c')
    requires AllocationId(o, r, c, k) == AllocationId(o', r', c', k')
    ensures o == o' && r == r' && c == c' && k == k'
  {
    assert AllocationId(o, r, c, k) == o + "|" + (r + "|" + (c + "|" + k));
    assert AllocationId(o', r', c', k') == o' + "|" + (r' + "|" + (c' + "|" + k'));
    SplitAtBar(o, r + "|" + (c + "|" + k), o', r' + "|" + (c' + "|" + k'));
    SplitAtBar(r, c + "|" + k, r', c' + "|" + k');
    SplitAtBar(c, k, c', k');
  }
}
