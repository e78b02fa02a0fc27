/** The invariant through the operations on workers, clients, connections and outputs. */
module Records {
  import opened Seqs
  import opened Ownership
  import opened Scheduler
  import opened Tables
  import opened Uniques
  import opened Retries
  import opened Traces
  import opened Timers
  import opened Wakeups
  import opened Invariant

  // Functions

  lemma EnsureFnWatch(s: State, f: Name)
    requires WatchOk(s.fns, s.fifo, s.jobs, s.workers, s.cons, s.clock)
    requires f !in s.fns && forall k, j :: k in s.fifo && j in s.fifo[k] ==> k.0 in s.fns
    ensures WatchOk(s.fns[f := NewFn], s.fifo, s.jobs, s.workers, s.cons, s.clock)
  {
    hide Heeded, Dozing;
  }

  lemma FifoNames(cfg: Config, s: State, x: Phase)
    requires Inv(cfg, s, x)
    ensures forall k, j :: k in s.fifo && j in s.fifo[k] ==> k.0 in s.fns
  {
    forall k, j | k in s.fifo && j in s.fifo[k] ensures k.0 in s.fns {
      hide Inv;
      var i :| 0 <= i < |s.fifo[k]| && s.fifo[k][i] == j;
      FifoJob(cfg, s, x, k, i);
    }
  }

  lemma EnsureFnRefs(s: State, floating: set<Id>, f: Name)
    requires RefsOk(s, floating)
    ensures RefsOk(EnsureFn(s, f), floating)
    ensures forall j :: j in s.jobs ==> s.jobs[j].spec.fn in s.fns
  {
    hide Live, RunRefs, ClientRefs;
  }

  lemma EnsureFnInv(cfg: Config, s: State, x: Phase, f: Name)
    requires Inv(cfg, s, x) && x.floating == {}
    ensures Inv(cfg, EnsureFn(s, f), x)
  {
    if f !in s.fns {
      FifoNames(cfg, s, x);
      hide RefsOk, CountsOk, KeysOk, Durable, RetriesOk, TraceOk, TimersOk, WatchOk, Owned, Waiting;
      EnsureFnRefs(s, x.floating, f);
      NewFnCounts(s, f);
      if x.watched { EnsureFnWatch(s, f); }
    }
  }

  // Workers

  lemma NewWorkerLists(cfg: Config, s: State, floating: set<Id>, c: Id, f: Name, timeout: int)
    requires ListsOk(cfg, s, floating) && s.nextWorker !in s.workers
    ensures ListsOk(cfg, NewWorker(s, c, f, timeout), floating)
  {
    hide Owned, Waiting, HandleBuckets, UniqueBuckets;
    var w, v := s.nextWorker, Worker(c, f, timeout);
    OwnerAdd(s.workers, ConOf, w, v);
    OwnerAdd(s.workers, FnOf, w, v);
    OwnedAdd(Owner(s.workers, ConOf), s.conWorkers, w, c);
    OwnedAdd(Owner(s.workers, FnOf), s.fnWorkers, w, f);
    hide Owner;
  }

  lemma NewWorkerRefs(s: State, floating: set<Id>, c: Id, f: Name, timeout: int)
    requires RefsOk(s, floating) && c in Live(s.cons) && f in s.fns
    ensures RefsOk(NewWorker(s, c, f, timeout), floating) && s.nextWorker !in s.workers
  {
    hide JobRefs, ClientRefs, Live, ConRefs;
  }

  lemma NewWorkerTimers(s: State, quiet: set<Id>, v: Worker)
    requires TimersOk(s.cons, s.runs, s.workers, quiet) && s.nextWorker !in s.workers
    ensures TimersOk(s.cons, s.runs, s.workers[s.nextWorker := v], quiet)
  {}

  lemma NewWorkerWatch(s: State, c: Id, f: Name, timeout: int)
    requires WatchOk(s.fns, s.fifo, s.jobs, s.workers, s.cons, s.clock) && !Dozes(s.cons, c)
    ensures WatchOk(s.fns, s.fifo, s.jobs, s.workers[s.nextWorker := Worker(c, f, timeout)], s.cons, s.clock)
  {
    hide Dozes, Heeded, Sorted;
    var ws := s.workers[s.nextWorker := Worker(c, f, timeout)];
    forall g: Name ensures Dozing(ws, s.cons, g) ==> Dozing(s.workers, s.cons, g) {}
    hide Dozing;
    forall k, j | k in s.fifo && j in s.fifo[k] && k.0 in s.fns && j in s.jobs
      ensures Heeded(s.fns[k.0], s.jobs[j].spec.when, s.clock, Dozing(ws, s.cons, k.0)) {
      HeededLess(s.fns[k.0], s.jobs[j].spec.when, s.clock, Dozing(s.workers, s.cons, k.0), Dozing(ws, s.cons, k.0));
    }
  }

  lemma HeededLess(fn: Func, when: int, clock: int, a: bool, b: bool)
    requires Heeded(fn, when, clock, a) && (b ==> a)
    ensures Heeded(fn, when, clock, b)
  {}

  lemma NewWorkerInv(cfg: Config, s: State, x: Phase, c: Id, f: Name, timeout: int)
    requires Inv(cfg, s, x) && c in Live(s.cons) && f in s.fns
    requires x.watched ==> !Dozes(s.cons, c)
    ensures Inv(cfg, NewWorker(s, c, f, timeout), x)
  {
    hide ListsOk, RefsOk, CountsOk, KeysOk, Durable, RetriesOk, TraceOk, TimersOk, WatchOk, Live, Dozes;
    NewWorkerRefs(s, x.floating, c, f, timeout);
    NewWorkerLists(cfg, s, x.floating, c, f, timeout);
    if x.timed { NewWorkerTimers(s, x.quiet, Worker(c, f, timeout)); }
    if x.watched { NewWorkerWatch(s, c, f, timeout); }
  }

  lemma AddWorkerInv(cfg: Config, s: State, x: Phase, c: Id, f: Name, timeout: int)
    requires Inv(cfg, s, x) && x.floating == {} && c in Live(s.cons)
    requires x.watched ==> !Dozes(s.cons, c)
    ensures Inv(cfg, AddWorker(s, c, f, timeout), x)
  {
    hide Inv, NewWorker;
    EnsureFnInv(cfg, s, x, f);
    NewWorkerInv(cfg, EnsureFn(s, f), x, c, f, timeout);
  }

  lemma DelWorkerLists(cfg: Config, s: State, floating: set<Id>, w: Id)
    requires ListsOk(cfg, s, floating) && w in s.workers && List(s.running, w) == []
    ensures ListsOk(cfg, DelWorker(s, w), floating)
  {
    hide Owned, Waiting, HandleBuckets, UniqueBuckets, Remove;
    OwnerDel(s.workers, ConOf, w);
    OwnerDel(s.workers, FnOf, w);
    OwnedDel(Owner(s.workers, ConOf), s.conWorkers, w);
    OwnedDel(Owner(s.workers, FnOf), s.fnWorkers, w);
    OwnedDrop(s.runs, s.running, w);
  }

  lemma DelWorkerRefs(s: State, floating: set<Id>, w: Id)
    requires RefsOk(s, floating) && forall j :: j in s.runs ==> s.runs[j] != w
    ensures RefsOk(DelWorker(s, w), floating)
  {
    hide JobRefs, ClientRefs, Live, ConRefs, Remove;
  }

  lemma DelWorkerTimers(s: State, quiet: set<Id>, w: Id)
    requires TimersOk(s.cons, s.runs, s.workers, quiet) && forall j :: j in s.runs ==> s.runs[j] != w
    ensures TimersOk(s.cons, s.runs, s.workers - {w}, quiet)
  {}

  lemma DelWorkerWatch(s: State, w: Id)
    requires WatchOk(s.fns, s.fifo, s.jobs, s.workers, s.cons, s.clock)
    ensures WatchOk(s.fns, s.fifo, s.jobs, s.workers - {w}, s.cons, s.clock)
  {
    hide WatchOk;
    WatchLess(s, s.(workers := s.workers - {w}));
  }

  lemma IdleWorker(cfg: Config, s: State, floating: set<Id>, w: Id)
    requires ListsOk(cfg, s, floating) && List(s.running, w) == []
    ensures forall j :: j in s.runs ==> s.runs[j] != w
  {}

  lemma DelWorkerInv(cfg: Config, s: State, x: Phase, w: Id)
    requires Inv(cfg, s, x) && w in s.workers && List(s.running, w) == []
    ensures Inv(cfg, DelWorker(s, w), x)
  {
    hide ListsOk, RefsOk, CountsOk, KeysOk, Durable, RetriesOk, TraceOk, TimersOk, WatchOk, Remove;
    IdleWorker(cfg, s, x.floating, w);
    DelWorkerLists(cfg, s, x.floating, w);
    DelWorkerRefs(s, x.floating, w);
    if x.timed { DelWorkerTimers(s, x.quiet, w); }
    if x.watched { DelWorkerWatch(s, w); }
  }

  // Clients

  lemma AddClientLists(cfg: Config, s: State, floating: set<Id>, c: Id, j: Id)
    requires ListsOk(cfg, s, floating) && s.nextClient !in s.clients
    ensures ListsOk(cfg, AddClient(s, c, j), floating)
  {
    hide Owned, Waiting, HandleBuckets, UniqueBuckets;
    var cl, v := s.nextClient, Client(c, j);
    OwnerAdd(s.clients, ClientCon, cl, v);
    OwnerAdd(s.clients, ClientJob, cl, v);
    OwnedAdd(Owner(s.clients, ClientCon), s.conClients, cl, c);
    OwnedAdd(Owner(s.clients, ClientJob), s.jobClients, cl, j);
    hide Owner;
  }

  lemma AddClientRefs(s: State, floating: set<Id>, c: Id, j: Id)
    requires RefsOk(s, floating) && c in Live(s.cons) && j in s.jobs
    ensures RefsOk(AddClient(s, c, j), floating) && s.nextClient !in s.clients
  {
    hide JobRefs, RunRefs, WorkerRefs, Live, ConRefs;
  }

  lemma AddClientTrace(s: State, c: Id, j: Id)
    requires TraceOk(s.out, s.clients, s.jobs, s.nextClient, s.nextJob, {})
    ensures TraceOk(s.out, s.clients[s.nextClient := Client(c, j)], s.jobs, s.nextClient + 1, s.nextJob, {})
  {
    hide Clean, Closed, Answered;
  }

  lemma AddClientInv(cfg: Config, s: State, x: Phase, c: Id, j: Id)
    requires Inv(cfg, s, x) && x.spent == {} && c in Live(s.cons) && j in s.jobs
    ensures Inv(cfg, AddClient(s, c, j), x)
  {
    hide ListsOk, RefsOk, CountsOk, KeysOk, Durable, RetriesOk, TraceOk, TimersOk, WatchOk;
    AddClientRefs(s, x.floating, c, j);
    AddClientLists(cfg, s, x.floating, c, j);
    if x.traced { AddClientTrace(s, c, j); }
  }

  lemma DelClientLists(cfg: Config, s: State, floating: set<Id>, cl: Id)
    requires ListsOk(cfg, s, floating) && cl in s.clients
    ensures ListsOk(cfg, DelClient(s, cl), floating)
  {
    hide Owned, Waiting, HandleBuckets, UniqueBuckets, Remove;
    OwnerDel(s.clients, ClientCon, cl);
    OwnerDel(s.clients, ClientJob, cl);
    OwnedDel(Owner(s.clients, ClientCon), s.conClients, cl);
    OwnedDel(Owner(s.clients, ClientJob), s.jobClients, cl);
  }

  lemma DelClientTrace(s: State, spent: set<Id>, cl: Id)
    requires TraceOk(s.out, s.clients, s.jobs, s.nextClient, s.nextJob, spent)
    ensures TraceOk(s.out, s.clients - {cl}, s.jobs, s.nextClient, s.nextJob, spent)
  {
    hide Clean, Closed, Answered;
  }

  lemma DelClientInv(cfg: Config, s: State, x: Phase, cl: Id)
    requires Inv(cfg, s, x) && cl in s.clients
    ensures Inv(cfg, DelClient(s, cl), x)
  {
    hide ListsOk, CountsOk, KeysOk, Durable, RetriesOk, TraceOk, TimersOk, WatchOk, Remove, JobRefs, RunRefs,
         WorkerRefs, ConRefs, Live;
    DelClientLists(cfg, s, x.floating, cl);
    if x.traced { DelClientTrace(s, x.spent, cl); }
  }

  // What of a job may change

  lemma SetJobLists(cfg: Config, s: State, floating: set<Id>, j: Id, job: Job)
    requires ListsOk(cfg, s, floating) && j in s.jobs && job.spec == s.jobs[j].spec
    ensures ListsOk(cfg, SetJob(s, j, job), floating)
  {
    hide Owned, Waiting, HandleBuckets, UniqueBuckets;
    SameSpec(cfg, s.jobs, j, job, s.runs, floating);
  }

  lemma SetJobRefs(s: State, floating: set<Id>, j: Id, job: Job)
    requires RefsOk(s, floating) && j in s.jobs && job.spec == s.jobs[j].spec
    ensures RefsOk(SetJob(s, j, job), floating)
  {
    hide WorkerRefs, Live, ConRefs;
    assert SetJob(s, j, job).jobs.Keys == s.jobs.Keys;
    hide ClientRefs;
  }

  lemma SetJobKeys(cfg: Config, jobs: Jobs, j: Id, job: Job)
    requires KeysOk(cfg, jobs) && j in jobs && job.spec == jobs[j].spec
    ensures KeysOk(cfg, jobs[j := job])
  {
    hide KeyedOk, HandleOk, Equal;
  }

  lemma SetJobRetries(cfg: Config, s: State, spent: set<Id>, j: Id, job: Job)
    requires RetriesOk(cfg, s.jobs, s.runs, s.out, s.nextJob, spent)
    requires RetryOk(cfg, job, j in s.runs, j in spent, Handouts(s.out, j))
    ensures RetriesOk(cfg, s.jobs[j := job], s.runs, s.out, s.nextJob, spent)
  {
    hide Handouts, RetryOk;
  }

  lemma SetJobTrace(s: State, spent: set<Id>, j: Id, job: Job)
    requires TraceOk(s.out, s.clients, s.jobs, s.nextClient, s.nextJob, spent) && j in s.jobs
    ensures TraceOk(s.out, s.clients, s.jobs[j := job], s.nextClient, s.nextJob, spent)
  {
    hide Clean, Closed, Answered;
  }

  lemma SetJobWatch(s: State, j: Id, job: Job)
    requires WatchOk(s.fns, s.fifo, s.jobs, s.workers, s.cons, s.clock) && j in s.jobs && job.spec == s.jobs[j].spec
    ensures WatchOk(s.fns, s.fifo, s.jobs[j := job], s.workers, s.cons, s.clock)
  {
    hide Heeded, Dozing, Sorted;
  }

  lemma SetJobInv(cfg: Config, s: State, x: Phase, j: Id, job: Job)
    requires Inv(cfg, s, x) && j in s.jobs && job.spec == s.jobs[j].spec
    requires Durable(s.jobs[j := job], s.store, x.spent)
    requires RetryOk(cfg, job, j in s.runs, j in x.spent, Handouts(s.out, j))
    ensures Inv(cfg, SetJob(s, j, job), x)
  {
    hide ListsOk, RefsOk, CountsOk, KeysOk, Durable, RetriesOk, TraceOk, TimersOk, WatchOk, RetryOk;
    SetJobLists(cfg, s, x.floating, j, job);
    SetJobRefs(s, x.floating, j, job);
    SameCounts(s.fns, s.jobs, s.runs, s.fifo, j, job);
    SetJobKeys(cfg, s.jobs, j, job);
    SetJobRetries(cfg, s, x.spent, j, job);
    if x.traced { SetJobTrace(s, x.spent, j, job); }
    if x.watched { SetJobWatch(s, j, job); }
  }

  /** The flags of a job may change, as long as it is not marked as queued. */
  lemma FlagInv(cfg: Config, s: State, x: Phase, j: Id, job: Job)
    requires Inv(cfg, s, x) && j in s.jobs
    requires job.spec == s.jobs[j].spec && job.retries == s.jobs[j].retries && (job.queued ==> s.jobs[j].queued)
    ensures Inv(cfg, SetJob(s, j, job), x)
  {
    FlagDurable(s.jobs, s.store, x.spent, j, job);
    SameRetry(cfg, s, x.spent, j, job);
    hide ListsOk, RefsOk, CountsOk, KeysOk, Durable, RetriesOk, TraceOk, TimersOk, WatchOk, RetryOk;
    SetJobInv(cfg, s, x, j, job);
  }

  lemma FlagDurable(jobs: Jobs, store: set<Key>, spent: set<Id>, j: Id, job: Job)
    requires Durable(jobs, store, spent) && j in jobs && job.spec == jobs[j].spec && (job.queued ==> jobs[j].queued)
    ensures Durable(jobs[j := job], store, spent)
  {
    hide Named;
  }

  lemma SameRetry(cfg: Config, s: State, spent: set<Id>, j: Id, job: Job)
    requires RetriesOk(cfg, s.jobs, s.runs, s.out, s.nextJob, spent) && j in s.jobs && job.retries == s.jobs[j].retries
    ensures RetryOk(cfg, job, j in s.runs, j in spent, Handouts(s.out, j))
  {
    hide Handouts;
  }

  lemma FreeClientInv(cfg: Config, s: State, x: Phase, cl: Id)
    requires Inv(cfg, s, x)
    ensures Inv(cfg, FreeClient(s, cl), x)
  {
    hide Inv;
    if cl in s.clients && s.clients[cl].job in s.jobs {
      DelClientInv(cfg, s, x, cl);
      var j, t := s.clients[cl].job, DelClient(s, cl);
      FlagInv(cfg, t, x, j, s.jobs[j].(ignore := true, queued := false));
    }
  }
}
