/** The invariant of the scheduler, kept by every operation on its tables. */
module Invariant {
  import opened Seqs
  import opened Ownership
  import opened Scheduler
  import opened Tables
  import opened Uniques
  import opened Retries
  import opened Traces
  import opened Timers
  import opened Wakeups

  /** Where an operation is: the jobs that are in no list for the moment, those about to be freed,
      and those no timeout is about; and which of the conditional guarantees are kept. */
  datatype Phase = Phase(
    floating: set<Id>, spent: set<Id>, quiet: set<Id>, traced: bool, timed: bool, watched: bool)

  ghost predicate Inv(cfg: Config, s: State, x: Phase) {
    && cfg.jobRetries <= 255
    && ListsOk(cfg, s, x.floating)
    && RefsOk(s, x.floating)
    && CountsOk(s.fns, s.jobs, s.runs, s.fifo)
    && KeysOk(cfg, s.jobs)
    && Durable(s.jobs, s.store, x.spent)
    && RetriesOk(cfg, s.jobs, s.runs, s.out, s.nextJob, x.spent)
    && (x.traced ==> TraceOk(s.out, s.clients, s.jobs, s.nextClient, s.nextJob, x.spent))
    && (x.timed ==> TimersOk(s.cons, s.runs, s.workers, x.quiet))
    && (x.watched ==> cfg.workerWakeup == 0 && WatchOk(s.fns, s.fifo, s.jobs, s.workers, s.cons, s.clock))
  }

  /** The job was not handed out to whoever it is running for. */
  ghost predicate Unassigned(cfg: Config, s: State, j: Id) {
    j in s.jobs && (cfg.jobRetries >= 0 ==> Handouts(s.out, j) <= s.jobs[j].retries)
  }

  lemma DetachRetries(cfg: Config, s: State, x: Phase, j: Id)
    requires RetriesOk(cfg, s.jobs, s.runs, s.out, s.nextJob, x.spent)
    requires j in x.spent || Unassigned(cfg, s, j)
    ensures RetriesOk(cfg, s.jobs, s.runs - {j}, s.out, s.nextJob, x.spent)
  {
    hide Handouts;
  }

  lemma DetachTimers(s: State, x: Phase, j: Id)
    requires TimersOk(s.cons, s.runs, s.workers, x.quiet) && j in x.quiet
    ensures TimersOk(s.cons, s.runs - {j}, s.workers, x.quiet)
  {}

  lemma DetachWatch(s: State, j: Id)
    requires WatchOk(s.fns, s.fifo, s.jobs, s.workers, s.cons, s.clock)
    ensures var t := Detach(s, j); WatchOk(t.fns, t.fifo, t.jobs, t.workers, t.cons, t.clock)
  {
    hide WatchOk, Remove;
    WatchLess(s, Detach(s, j));
  }

  lemma DetachInv(cfg: Config, s: State, x: Phase, j: Id)
    requires Inv(cfg, s, x) && x.floating == {} && j in s.runs
    requires j in x.spent || Unassigned(cfg, s, j)
    requires x.timed ==> j in x.quiet
    ensures Inv(cfg, Detach(s, j), x.(floating := {j}))
  {
    hide ListsOk, RefsOk, CountsOk, KeysOk, Durable, RetriesOk, TraceOk, TimersOk, WatchOk, Remove;
    JobFacts(s, x.floating, j);
    DetachLists(cfg, s, j);
    DetachRefs(s, j);
    DetachCounts(s, j);
    DetachRetries(cfg, s, x, j);
    if x.timed { DetachTimers(s, x, j); }
    if x.watched { DetachWatch(s, j); }
  }

  lemma AppendInv(cfg: Config, s: State, x: Phase, j: Id)
    requires Inv(cfg, s, x) && x.floating == {j}
    requires x.watched ==> !Dozing(s.workers, s.cons, s.jobs[j].spec.fn)
    ensures Inv(cfg, Append(s, j), x.(floating := {}))
  {
    hide ListsOk, RefsOk, CountsOk, KeysOk, Durable, RetriesOk, TraceOk, TimersOk, WatchOk, Schedule, Insert;
    JobFacts(s, x.floating, j);
    AppendLists(cfg, s, j);
    AppendRefs(s, j);
    AppendCounts(s, j);
    if x.watched { AppendWatch(s, j); }
  }

  lemma AttachRetries(cfg: Config, s: State, j: Id, w: Id)
    requires RetriesOk(cfg, s.jobs, s.runs, s.out, s.nextJob, {}) && j in s.jobs && j !in s.runs
    ensures RetriesOk(cfg, s.jobs, s.runs[j := w], s.out, s.nextJob, {}) && Unassigned(cfg, s, j)
  {
    hide Handouts;
  }

  lemma AttachTimers(s: State, quiet: set<Id>, j: Id, w: Id)
    requires TimersOk(s.cons, s.runs, s.workers, quiet) && j !in s.runs
    ensures TimersOk(s.cons, s.runs[j := w], s.workers, quiet + {j})
  {}

  lemma AttachWatch(s: State, k: Home, i: nat, w: Id)
    requires WatchOk(s.fns, s.fifo, s.jobs, s.workers, s.cons, s.clock)
    ensures var t := Attach(s, k, i, w); WatchOk(t.fns, t.fifo, t.jobs, t.workers, t.cons, t.clock)
  {
    hide WatchOk;
    WatchLess(s, Attach(s, k, i, w));
  }

  /** What is known of a job in a FIFO. */
  lemma FifoJob(cfg: Config, s: State, x: Phase, k: Home, i: nat)
    requires Inv(cfg, s, x) && i < |List(s.fifo, k)|
    ensures var j := s.fifo[k][i];
              j in s.jobs && j !in s.runs && HomeOf(s.jobs[j]) == k && k.0 in s.fns && j < s.nextJob
  {
    hide Owned, CountsOk, KeysOk, Durable, RetriesOk, TraceOk, TimersOk, WatchOk, WorkerRefs, ClientRefs, RunRefs;
    OwnedAt(Waiting(s.jobs, s.runs, x.floating), s.fifo, k, i);
  }

  lemma AttachInv(cfg: Config, s: State, x: Phase, k: Home, i: nat, w: Id)
    requires Inv(cfg, s, x) && x.floating == {} && x.spent == {}
    requires i < |List(s.fifo, k)| && w in s.workers && s.workers[w].fn == k.0
    ensures var j := s.fifo[k][i]; Inv(cfg, Attach(s, k, i, w), x.(quiet := x.quiet + {j})) && Unassigned(cfg, s, j)
  {
    hide ListsOk, RefsOk, CountsOk, KeysOk, Durable, RetriesOk, TraceOk, TimersOk, WatchOk, Unassigned, RemoveAt;
    FifoJob(cfg, s, x, k, i);
    AttachLists(cfg, s, k, i, w);
    AttachRefs(s, k, i, w);
    AttachCounts(s, k, i, w);
    AttachRetries(cfg, s, s.fifo[k][i], w);
    if x.timed { AttachTimers(s, x.quiet, s.fifo[k][i], w); }
    if x.watched { AttachWatch(s, k, i, w); }
  }

  lemma CreateRetries(cfg: Config, s: State, job: Job)
    requires RetriesOk(cfg, s.jobs, s.runs, s.out, s.nextJob, {}) && job.retries == 0
    ensures RetriesOk(cfg, s.jobs[s.nextJob := job], s.runs, s.out, s.nextJob + 1, {})
  {
    hide Handouts;
  }

  lemma CreateTrace(s: State, job: Job)
    requires TraceOk(s.out, s.clients, s.jobs, s.nextClient, s.nextJob, {})
    ensures TraceOk(s.out, s.clients, s.jobs[s.nextJob := job], s.nextClient, s.nextJob + 1, {})
  {
    hide Clean, Closed, Answered;
  }

  lemma CreateWatch(cfg: Config, s: State, job: Job)
    requires WatchOk(s.fns, s.fifo, s.jobs, s.workers, s.cons, s.clock)
    requires s.nextJob !in s.jobs && forall k, j :: k in s.fifo && j in s.fifo[k] ==> j in s.jobs
    ensures var t := Create(cfg, s, job); WatchOk(t.fns, t.fifo, t.jobs, t.workers, t.cons, t.clock)
  {
    hide WatchOk, Create;
    CreateFrame(cfg, s, job);
    WatchLess(s, Create(cfg, s, job));
  }

  lemma CreateFrame(cfg: Config, s: State, job: Job)
    ensures var t := Create(cfg, s, job);
            && t.fifo == s.fifo && t.workers == s.workers && t.cons == s.cons && t.clock == s.clock
            && (t.jobs == s.jobs || t.jobs == s.jobs[s.nextJob := job])
            && forall f :: f in t.fns ==> f in s.fns && SameAlarm(t.fns[f], s.fns[f])
  {
    hide Bucket, List;
  }

  lemma CreateInv(cfg: Config, s: State, x: Phase, job: Job)
    requires Inv(cfg, s, x) && x.floating == {} && x.spent == {}
    requires job.spec.fn in s.fns && job.retries == 0 && !job.queued
    requires KeysOk(cfg, s.jobs[s.nextJob := job])
    ensures Inv(cfg, Create(cfg, s, job), x.(floating := {s.nextJob}))
  {
    hide ListsOk, RefsOk, CountsOk, KeysOk, Durable, RetriesOk, TraceOk, TimersOk, WatchOk;
    CreateRefs(cfg, s, job);
    CreateLists(cfg, s, job);
    CreateCounts(cfg, s, job);
    CreateDurable(s.jobs, s.store, s.nextJob, job);
    CreateRetries(cfg, s, job);
    if x.traced { CreateTrace(s, job); }
    FifoKnown(cfg, s, {});
    if x.watched { CreateWatch(cfg, s, job); }
  }

  lemma UnlinkRetries(cfg: Config, s: State, spent: set<Id>, j: Id)
    requires RetriesOk(cfg, s.jobs, s.runs, s.out, s.nextJob, spent) && spent <= {j}
    ensures RetriesOk(cfg, s.jobs - {j}, s.runs, s.out, s.nextJob, {})
  {
    hide Handouts;
  }

  lemma UnlinkTrace(s: State, spent: set<Id>, j: Id)
    requires TraceOk(s.out, s.clients, s.jobs, s.nextClient, s.nextJob, spent) && spent <= {j}
    requires forall cl :: cl in s.clients ==> s.clients[cl].job != j
    ensures TraceOk(s.out, s.clients, s.jobs - {j}, s.nextClient, s.nextJob, {})
  {
    hide Clean, Closed, Answered;
  }

  lemma UnlinkWatch(cfg: Config, s: State, j: Id)
    requires WatchOk(s.fns, s.fifo, s.jobs, s.workers, s.cons, s.clock)
    ensures var t := Unlink(cfg, s, j); WatchOk(t.fns, t.fifo, t.jobs, t.workers, t.cons, t.clock)
  {
    hide WatchOk, Remove;
    WatchLess(s, Unlink(cfg, s, j));
  }

  lemma UnlinkInv(cfg: Config, s: State, x: Phase, j: Id)
    requires Inv(cfg, s, x) && x.floating == {j} && x.spent <= {j} && List(s.jobClients, j) == []
    ensures Inv(cfg, Unlink(cfg, s, j), x.(floating := {}, spent := {}))
  {
    hide ListsOk, RefsOk, CountsOk, KeysOk, Durable, RetriesOk, TraceOk, TimersOk, WatchOk;
    JobFacts(s, x.floating, j);
    ClientLists(cfg, s, x.floating, j);
    UnlinkLists(cfg, s, j);
    UnlinkRefs(cfg, s, j);
    UnlinkCounts(cfg, s, j);
    UnlinkDurable(cfg, s.jobs, s.store, x.spent, j);
    UnlinkRetries(cfg, s, x.spent, j);
    if x.traced { UnlinkTrace(s, x.spent, j); }
    if x.watched { UnlinkWatch(cfg, s, j); }
  }
}
