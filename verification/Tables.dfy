/** What the tables of the scheduler always agree on: each list holds exactly what it should, and
    the counters of a function count it. */
module Tables {
  import opened Seqs
  import opened Ownership
  import opened Scheduler

  type Jobs = map<Id, Job>

  // Who owns what

  function ConOf(w: Worker): Id { w.con }
  function FnOf(w: Worker): Name { w.fn }
  function ClientCon(c: Client): Id { c.con }
  function ClientJob(c: Client): Id { c.job }

  function HandleBuckets(cfg: Config, jobs: Jobs): map<Id, nat> {
    map j | j in jobs :: Bucket(cfg, jobs[j].spec.handleKey)
  }

  function UniqueBuckets(cfg: Config, jobs: Jobs): map<Id, nat> {
    map j | j in jobs :: Bucket(cfg, jobs[j].spec.uniqueKey)
  }

  /** Where the jobs that are not running wait; those in `floating` are, for the moment, nowhere. */
  function Waiting(jobs: Jobs, runs: map<Id, Id>, floating: set<Id>): map<Id, Home> {
    map j | j in jobs && j !in runs && j !in floating :: HomeOf(jobs[j])
  }

  /** Changing what of a job may change moves it nowhere. */
  lemma SameSpec(cfg: Config, jobs: Jobs, j: Id, job: Job, runs: map<Id, Id>, floating: set<Id>)
    requires j in jobs && job.spec == jobs[j].spec
    ensures Waiting(jobs[j := job], runs, floating) == Waiting(jobs, runs, floating)
    ensures HandleBuckets(cfg, jobs[j := job]) == HandleBuckets(cfg, jobs)
    ensures UniqueBuckets(cfg, jobs[j := job]) == UniqueBuckets(cfg, jobs)
  {}

  ghost predicate ListsOk(cfg: Config, s: State, floating: set<Id>) {
    && Owned(Waiting(s.jobs, s.runs, floating), s.fifo)
    && Owned(s.runs, s.running)
    && Owned(Owner(s.workers, ConOf), s.conWorkers)
    && Owned(Owner(s.workers, FnOf), s.fnWorkers)
    && Owned(Owner(s.clients, ClientCon), s.conClients)
    && Owned(Owner(s.clients, ClientJob), s.jobClients)
    && Owned(HandleBuckets(cfg, s.jobs), s.handleIx)
    && Owned(UniqueBuckets(cfg, s.jobs), s.uniqueIx)
  }

  lemma FifoCreate(jobs: Jobs, runs: map<Id, Id>, fifo: map<Home, seq<Id>>, j: Id, job: Job)
    requires Owned(Waiting(jobs, runs, {}), fifo) && j !in jobs
    ensures Owned(Waiting(jobs[j := job], runs, {j}), fifo)
  {
    hide Owned;
    assert Waiting(jobs[j := job], runs, {j}) == Waiting(jobs, runs, {});
  }

  lemma FifoUnlink(jobs: Jobs, runs: map<Id, Id>, fifo: map<Home, seq<Id>>, j: Id)
    requires Owned(Waiting(jobs, runs, {j}), fifo)
    ensures Owned(Waiting(jobs - {j}, runs, {}), fifo)
  {
    hide Owned;
    assert Waiting(jobs - {j}, runs, {}) == Waiting(jobs, runs, {j});
  }

  lemma HandleCreate(cfg: Config, jobs: Jobs, ix: map<nat, seq<Id>>, j: Id, job: Job)
    requires Owned(HandleBuckets(cfg, jobs), ix) && j !in jobs
    ensures var b := Bucket(cfg, job.spec.handleKey);
              Owned(HandleBuckets(cfg, jobs[j := job]), ix[b := [j] + List(ix, b)])
  {
    hide Owned, Bucket;
    var b := Bucket(cfg, job.spec.handleKey);
    assert HandleBuckets(cfg, jobs[j := job]) == HandleBuckets(cfg, jobs)[j := b];
    OwnedAdd(HandleBuckets(cfg, jobs), ix, j, b);
  }

  lemma UniqueCreate(cfg: Config, jobs: Jobs, ix: map<nat, seq<Id>>, j: Id, job: Job)
    requires Owned(UniqueBuckets(cfg, jobs), ix) && j !in jobs
    ensures var b := Bucket(cfg, job.spec.uniqueKey);
              Owned(UniqueBuckets(cfg, jobs[j := job]), ix[b := [j] + List(ix, b)])
  {
    hide Owned, Bucket;
    var b := Bucket(cfg, job.spec.uniqueKey);
    assert UniqueBuckets(cfg, jobs[j := job]) == UniqueBuckets(cfg, jobs)[j := b];
    OwnedAdd(UniqueBuckets(cfg, jobs), ix, j, b);
  }

  lemma HandleUnlink(cfg: Config, jobs: Jobs, ix: map<nat, seq<Id>>, j: Id)
    requires Owned(HandleBuckets(cfg, jobs), ix) && j in jobs
    ensures var b := Bucket(cfg, jobs[j].spec.handleKey);
              Owned(HandleBuckets(cfg, jobs - {j}), ix[b := Remove(List(ix, b), j)])
  {
    hide Owned, Bucket, Remove;
    assert HandleBuckets(cfg, jobs - {j}) == HandleBuckets(cfg, jobs) - {j};
    OwnedDel(HandleBuckets(cfg, jobs), ix, j);
  }

  lemma UniqueUnlink(cfg: Config, jobs: Jobs, ix: map<nat, seq<Id>>, j: Id)
    requires Owned(UniqueBuckets(cfg, jobs), ix) && j in jobs
    ensures var b := Bucket(cfg, jobs[j].spec.uniqueKey);
              Owned(UniqueBuckets(cfg, jobs - {j}), ix[b := Remove(List(ix, b), j)])
  {
    hide Owned, Bucket, Remove;
    assert UniqueBuckets(cfg, jobs - {j}) == UniqueBuckets(cfg, jobs) - {j};
    OwnedDel(UniqueBuckets(cfg, jobs), ix, j);
  }

  lemma DetachLists(cfg: Config, s: State, j: Id)
    requires ListsOk(cfg, s, {}) && j in s.runs && j in s.jobs && s.jobs[j].spec.fn in s.fns
    ensures ListsOk(cfg, Detach(s, j), {j})
  {
    assert Waiting(s.jobs, s.runs - {j}, {j}) == Waiting(s.jobs, s.runs, {});
    OwnedDel(s.runs, s.running, j);
    hide Owned, Waiting, HandleBuckets, UniqueBuckets;
  }

  lemma AppendLists(cfg: Config, s: State, j: Id)
    requires ListsOk(cfg, s, {j}) && j in s.jobs && s.jobs[j].spec.fn in s.fns && j !in s.runs
    ensures ListsOk(cfg, Append(s, j), {})
  {
    hide Owned, Waiting, HandleBuckets, UniqueBuckets, Schedule, Insert;
    FifoAppend(s.jobs, s.runs, s.fifo, j);
  }

  lemma FifoAppend(jobs: Jobs, runs: map<Id, Id>, fifo: map<Home, seq<Id>>, j: Id)
    requires Owned(Waiting(jobs, runs, {j}), fifo) && j in jobs && j !in runs
    ensures var k := HomeOf(jobs[j]); Owned(Waiting(jobs, runs, {}), fifo[k := List(fifo, k) + [j]])
  {
    hide Owned;
    assert Waiting(jobs, runs, {}) == Waiting(jobs, runs, {j})[j := HomeOf(jobs[j])];
    OwnedAdd(Waiting(jobs, runs, {j}), fifo, j, HomeOf(jobs[j]));
  }

  lemma AttachLists(cfg: Config, s: State, k: Home, i: nat, w: Id)
    requires ListsOk(cfg, s, {}) && i < |List(s.fifo, k)|
    ensures ListsOk(cfg, Attach(s, k, i, w), {})
  {
    var j := s.fifo[k][i];
    OwnedDelAt(Waiting(s.jobs, s.runs, {}), s.fifo, k, i);
    assert Waiting(s.jobs, s.runs[j := w], {}) == Waiting(s.jobs, s.runs, {}) - {j};
    OwnedAdd(s.runs, s.running, j, w);
    hide Owned, Waiting, HandleBuckets, UniqueBuckets, RemoveAt;
  }

  lemma CreateLists(cfg: Config, s: State, job: Job)
    requires ListsOk(cfg, s, {}) && s.nextJob !in s.jobs && job.spec.fn in s.fns
    ensures ListsOk(cfg, Create(cfg, s, job), {s.nextJob})
  {
    hide Owned, Waiting, HandleBuckets, UniqueBuckets, Bucket;
    FifoCreate(s.jobs, s.runs, s.fifo, s.nextJob, job);
    HandleCreate(cfg, s.jobs, s.handleIx, s.nextJob, job);
    UniqueCreate(cfg, s.jobs, s.uniqueIx, s.nextJob, job);
  }

  lemma UnlinkLists(cfg: Config, s: State, j: Id)
    requires ListsOk(cfg, s, {j}) && j in s.jobs && s.jobs[j].spec.fn in s.fns && List(s.jobClients, j) == []
    ensures ListsOk(cfg, Unlink(cfg, s, j), {})
  {
    hide Owned, Waiting, HandleBuckets, UniqueBuckets, Bucket, Remove;
    FifoUnlink(s.jobs, s.runs, s.fifo, j);
    HandleUnlink(cfg, s.jobs, s.handleIx, j);
    UniqueUnlink(cfg, s.jobs, s.uniqueIx, j);
    OwnedDrop(Owner(s.clients, ClientJob), s.jobClients, j);
  }

  ghost predicate JobRefs(jobs: Jobs, names: set<Name>, nextJob: Id) {
    forall j :: j in jobs ==> jobs[j].spec.fn in names && j < nextJob
  }

  ghost predicate RunRefs(runs: map<Id, Id>, jobs: Jobs, workers: map<Id, Worker>, floating: set<Id>) {
    && (forall j :: j in floating ==> j in jobs && j !in runs)
    && (forall j :: j in runs ==> j in jobs && runs[j] in workers && workers[runs[j]].fn == jobs[j].spec.fn)
  }

  ghost predicate WorkerRefs(workers: map<Id, Worker>, live: set<Id>, names: set<Name>, nextWorker: Id) {
    forall w :: w in workers ==> workers[w].con in live && workers[w].fn in names && w < nextWorker
  }

  ghost predicate ClientRefs(clients: map<Id, Client>, live: set<Id>, jobs: set<Id>, nextClient: Id) {
    forall cl :: cl in clients ==> clients[cl].con in live && clients[cl].job in jobs && cl < nextClient
  }

  /** The connections something may still refer to. */
  function Live(cons: map<Id, Con>): set<Id> { set c | c in cons && !cons[c].removed }

  ghost predicate ConRefs(cons: map<Id, Con>) {
    forall c :: c in cons && cons[c].removed ==> cons[c].dead
  }

  ghost predicate RefsOk(s: State, floating: set<Id>) {
    && JobRefs(s.jobs, s.fns.Keys, s.nextJob)
    && RunRefs(s.runs, s.jobs, s.workers, floating)
    && WorkerRefs(s.workers, Live(s.cons), s.fns.Keys, s.nextWorker)
    && ClientRefs(s.clients, Live(s.cons), s.jobs.Keys, s.nextClient)
    && ConRefs(s.cons)
  }

  lemma DetachRefs(s: State, j: Id)
    requires RefsOk(s, {}) && j in s.runs
    ensures RefsOk(Detach(s, j), {j})
  {
    hide WorkerRefs, ClientRefs, Live;
    assert s.jobs[j].spec.fn in s.fns.Keys;
    assert Detach(s, j).fns.Keys == s.fns.Keys;
  }

  lemma AppendRefs(s: State, j: Id)
    requires RefsOk(s, {j})
    ensures RefsOk(Append(s, j), {})
  {
    hide WorkerRefs, ClientRefs, Live;
    assert Append(s, j).fns.Keys == s.fns.Keys;
  }

  lemma AttachRefs(s: State, k: Home, i: nat, w: Id)
    requires RefsOk(s, {}) && i < |List(s.fifo, k)| && w in s.workers && s.workers[w].fn == k.0
    requires s.fifo[k][i] in s.jobs && s.jobs[s.fifo[k][i]].spec.fn == k.0
    ensures RefsOk(Attach(s, k, i, w), {})
  {
    hide WorkerRefs, ClientRefs, Live;
    assert Attach(s, k, i, w).fns.Keys == s.fns.Keys;
  }

  lemma CreateRefs(cfg: Config, s: State, job: Job)
    requires RefsOk(s, {}) && job.spec.fn in s.fns
    ensures RefsOk(Create(cfg, s, job), {s.nextJob})
    ensures s.nextJob !in s.jobs && s.nextJob !in s.runs
  {
    hide WorkerRefs, Live;
    assert Create(cfg, s, job).fns.Keys == s.fns.Keys;
  }

  lemma UnlinkRefs(cfg: Config, s: State, j: Id)
    requires RefsOk(s, {j}) && forall cl :: cl in s.clients ==> s.clients[cl].job != j
    ensures RefsOk(Unlink(cfg, s, j), {})
  {
    hide WorkerRefs, Live;
    assert Unlink(cfg, s, j).fns.Keys == s.fns.Keys;
  }

  /** What is known of a job. */
  lemma JobFacts(s: State, floating: set<Id>, j: Id)
    requires RefsOk(s, floating)
    ensures j in s.jobs ==> s.jobs[j].spec.fn in s.fns && j < s.nextJob
    ensures j in s.runs ==> j in s.jobs && s.runs[j] in s.workers
    ensures j in floating ==> j in s.jobs && j !in s.runs
  {
    hide WorkerRefs, ClientRefs, ConRefs;
  }

  lemma FifoKnown(cfg: Config, s: State, floating: set<Id>)
    requires ListsOk(cfg, s, floating)
    ensures forall k, j :: k in s.fifo && j in s.fifo[k] ==> j in s.jobs
  {
    forall k, j | k in s.fifo && j in s.fifo[k] ensures j in s.jobs {
      assert j in Waiting(s.jobs, s.runs, floating);
    }
  }

  lemma ClientLists(cfg: Config, s: State, floating: set<Id>, j: Id)
    requires ListsOk(cfg, s, floating) && List(s.jobClients, j) == []
    ensures forall cl :: cl in s.clients ==> s.clients[cl].job != j
  {
    forall cl | cl in s.clients ensures s.clients[cl].job != j {
      var j' := Owner(s.clients, ClientJob)[cl];
    }
  }

  // Counters

  function JobsOf(jobs: Jobs, f: Name): set<Id> {
    set j | j in jobs && jobs[j].spec.fn == f
  }

  function RunningOf(jobs: Jobs, runs: map<Id, Id>, f: Name): set<Id> {
    set j | j in jobs && jobs[j].spec.fn == f && j in runs
  }

  function QueuedOf(fifo: map<Home, seq<Id>>, f: Name): nat {
    |List(fifo, (f, High))| + |List(fifo, (f, Normal))| + |List(fifo, (f, Low))|
  }

  ghost predicate CountOk(fn: Func, f: Name, jobs: Jobs, runs: map<Id, Id>, fifo: map<Home, seq<Id>>) {
    && fn.jobCount == QueuedOf(fifo, f)
    && fn.jobTotal == |JobsOf(jobs, f)|
    && fn.jobRunning == |RunningOf(jobs, runs, f)|
  }

  ghost predicate CountsOk(fns: map<Name, Func>, jobs: Jobs, runs: map<Id, Id>, fifo: map<Home, seq<Id>>) {
    forall f :: f in fns ==> CountOk(fns[f], f, jobs, runs, fifo)
  }

  lemma CountDetach(jobs: Jobs, runs: map<Id, Id>, f: Name, j: Id)
    requires j in jobs && j in runs
    ensures |RunningOf(jobs, runs - {j}, f)| == |RunningOf(jobs, runs, f)| - if jobs[j].spec.fn == f then 1 else 0
  {
    assert RunningOf(jobs, runs - {j}, f) == RunningOf(jobs, runs, f) - {j};
  }

  lemma CountAttach(jobs: Jobs, runs: map<Id, Id>, f: Name, j: Id, w: Id)
    requires j in jobs && j !in runs
    ensures |RunningOf(jobs, runs[j := w], f)| == |RunningOf(jobs, runs, f)| + if jobs[j].spec.fn == f then 1 else 0
  {
    assert RunningOf(jobs, runs[j := w], f) == RunningOf(jobs, runs, f) + if jobs[j].spec.fn == f then {j} else {};
  }

  lemma CountCreate(jobs: Jobs, f: Name, j: Id, job: Job)
    requires j !in jobs
    ensures |JobsOf(jobs[j := job], f)| == |JobsOf(jobs, f)| + if job.spec.fn == f then 1 else 0
  {
    assert JobsOf(jobs[j := job], f) == JobsOf(jobs, f) + if job.spec.fn == f then {j} else {};
  }

  lemma CountUnlink(jobs: Jobs, f: Name, j: Id)
    requires j in jobs
    ensures |JobsOf(jobs - {j}, f)| == |JobsOf(jobs, f)| - if jobs[j].spec.fn == f then 1 else 0
  {
    assert JobsOf(jobs - {j}, f) == JobsOf(jobs, f) - {j};
  }

  lemma CountIdle(jobs: Jobs, runs: map<Id, Id>, f: Name, j: Id, job: Job)
    requires j !in runs
    ensures RunningOf(jobs[j := job], runs, f) == RunningOf(jobs, runs, f)
    ensures RunningOf(jobs - {j}, runs, f) == RunningOf(jobs, runs, f)
  {}

  lemma CountSame(jobs: Jobs, runs: map<Id, Id>, f: Name, j: Id, job: Job)
    requires j in jobs && job.spec == jobs[j].spec
    ensures JobsOf(jobs[j := job], f) == JobsOf(jobs, f)
              && RunningOf(jobs[j := job], runs, f) == RunningOf(jobs, runs, f)
  {}

  lemma CountFifo(fifo: map<Home, seq<Id>>, k: Home, q: seq<Id>, f: Name)
    ensures QueuedOf(fifo[k := q], f) == QueuedOf(fifo, f) + if k.0 == f then |q| - |List(fifo, k)| else 0
  {
    assert k.1 == High || k.1 == Normal || k.1 == Low;
  }

  // The counters through the moves of a job

  lemma DetachCounts(s: State, j: Id)
    requires CountsOk(s.fns, s.jobs, s.runs, s.fifo) && j in s.jobs && j in s.runs && s.jobs[j].spec.fn in s.fns
    ensures var t := Detach(s, j); CountsOk(t.fns, t.jobs, t.runs, t.fifo)
  {
    hide QueuedOf, JobsOf, RunningOf;
    forall f | f in s.fns { CountDetach(s.jobs, s.runs, f, j); }
  }

  lemma AppendCounts(s: State, j: Id)
    requires CountsOk(s.fns, s.jobs, s.runs, s.fifo) && j in s.jobs && s.jobs[j].spec.fn in s.fns
    ensures var t := Append(s, j); CountsOk(t.fns, t.jobs, t.runs, t.fifo)
  {
    hide QueuedOf, JobsOf, RunningOf;
    var k := HomeOf(s.jobs[j]);
    forall f | f in s.fns { CountFifo(s.fifo, k, List(s.fifo, k) + [j], f); }
  }

  lemma AttachCounts(s: State, k: Home, i: nat, w: Id)
    requires CountsOk(s.fns, s.jobs, s.runs, s.fifo) && i < |List(s.fifo, k)| && k.0 in s.fns
    requires var j := s.fifo[k][i]; j in s.jobs && j !in s.runs && s.jobs[j].spec.fn == k.0
    ensures var t := Attach(s, k, i, w); CountsOk(t.fns, t.jobs, t.runs, t.fifo)
  {
    hide QueuedOf, JobsOf, RunningOf;
    forall f | f in s.fns { CountFifo(s.fifo, k, RemoveAt(s.fifo[k], i), f); }
    forall f | f in s.fns { CountAttach(s.jobs, s.runs, f, s.fifo[k][i], w); }
  }

  lemma CreateCounts(cfg: Config, s: State, job: Job)
    requires CountsOk(s.fns, s.jobs, s.runs, s.fifo) && s.nextJob !in s.jobs && s.nextJob !in s.runs
               && job.spec.fn in s.fns
    ensures var t := Create(cfg, s, job); CountsOk(t.fns, t.jobs, t.runs, t.fifo)
  {
    hide QueuedOf, JobsOf, RunningOf;
    forall f | f in s.fns { CountCreate(s.jobs, f, s.nextJob, job); }
    forall f | f in s.fns { CountIdle(s.jobs, s.runs, f, s.nextJob, job); }
  }

  lemma UnlinkCounts(cfg: Config, s: State, j: Id)
    requires CountsOk(s.fns, s.jobs, s.runs, s.fifo) && j in s.jobs && j !in s.runs && s.jobs[j].spec.fn in s.fns
    ensures var t := Unlink(cfg, s, j); CountsOk(t.fns, t.jobs, t.runs, t.fifo)
  {
    hide QueuedOf, JobsOf, RunningOf;
    forall f | f in s.fns { CountUnlink(s.jobs, f, j); }
    forall f | f in s.fns { CountIdle(s.jobs, s.runs, f, j, s.jobs[j]); }
  }

  lemma SameCounts(fns: map<Name, Func>, jobs: Jobs, runs: map<Id, Id>, fifo: map<Home, seq<Id>>, j: Id, job: Job)
    requires CountsOk(fns, jobs, runs, fifo) && j in jobs && job.spec == jobs[j].spec
    ensures CountsOk(fns, jobs[j := job], runs, fifo)
  {
    hide QueuedOf, JobsOf, RunningOf;
    forall f | f in fns { CountSame(jobs, runs, f, j, job); }
  }

  /** A function nobody has used counts nothing. */
  lemma NewFnCounts(s: State, f: Name)
    requires CountsOk(s.fns, s.jobs, s.runs, s.fifo) && f !in s.fns
    requires forall j :: j in s.jobs ==> s.jobs[j].spec.fn in s.fns
    requires Owned(Waiting(s.jobs, s.runs, {}), s.fifo)
    ensures CountsOk(s.fns[f := NewFn], s.jobs, s.runs, s.fifo)
  {
    hide CountOk;
    assert CountOk(NewFn, f, s.jobs, s.runs, s.fifo) by { NoneOf(s, f); }
  }

  lemma NoneOf(s: State, f: Name)
    requires forall j :: j in s.jobs ==> s.jobs[j].spec.fn != f
    requires Owned(Waiting(s.jobs, s.runs, {}), s.fifo)
    ensures CountOk(NewFn, f, s.jobs, s.runs, s.fifo)
  {
    assert JobsOf(s.jobs, f) == {} && RunningOf(s.jobs, s.runs, f) == {};
    hide JobsOf, RunningOf;
    EmptyFifo(s, f, High); EmptyFifo(s, f, Normal); EmptyFifo(s, f, Low);
  }

  lemma EmptyFifo(s: State, f: Name, p: Priority)
    requires forall j :: j in s.jobs ==> s.jobs[j].spec.fn != f
    requires Owned(Waiting(s.jobs, s.runs, {}), s.fifo)
    ensures List(s.fifo, (f, p)) == []
  {
    OwnedNone(Waiting(s.jobs, s.runs, {}), s.fifo, (f, p));
  }
}
