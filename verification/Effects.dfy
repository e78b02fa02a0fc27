/** What single steps come to when nobody sleeps and workers do not take turns. */
module Effects {
  import opened Seqs
  import opened Scheduler
  import opened Selection
  import opened Commands

  // Nobody sleeps

  ghost predicate Quiet(s: State, f: Name) { forall w :: w in List(s.fnWorkers, f) ==> !Wakeable(s, w) }

  lemma {:induction false} WakesNobody(s: State, ws: seq<Id>, sent: nat)
    requires forall w :: w in ws ==> !Wakeable(s, w)
    ensures WakeLoop(s, ws, 0, sent) == (s, |ws|)
    decreases |ws|
  {
    hide Wakeable, Life, Accepts;
    if ws != [] {
      assert ws[0] in ws;
      WakesNobody(s, ws[1..], sent);
    }
  }

  lemma WakeIs(s: State, f: Name)
    requires Quiet(s, f)
    ensures var t := Wake(s, f, 0);
              t == s.(fnWorkers := t.fnWorkers) && forall g :: List(t.fnWorkers, g) == List(s.fnWorkers, g)
  {
    hide Wakeable, WakeLoop, Life, Accepts;
    var ws := List(s.fnWorkers, f);
    WakesNobody(s, ws, 0);
    assert ws[|ws|..] + ws[..|ws|] == ws;
  }

  /** The job is queued, and otherwise only the counters and the timer of its function change. */
  ghost predicate Queues(s: State, t: State, j: Id) {
    && j in s.jobs && t == s.(fnWorkers := t.fnWorkers, fifo := t.fifo, fns := t.fns)
    && (forall g :: List(t.fnWorkers, g) == List(s.fnWorkers, g))
    && var k := HomeOf(s.jobs[j]);
       && t.fifo == s.fifo[k := List(s.fifo, k) + [j]] && t.fns.Keys == s.fns.Keys
       && (forall g :: g in s.fns && g != k.0 ==> t.fns[g] == s.fns[g])
       && (k.0 in s.fns ==>
             t.fns[k.0].jobCount == s.fns[k.0].jobCount + 1 && t.fns[k.0].maxQueue == s.fns[k.0].maxQueue)
       && (k.0 in s.fns && s.jobs[j].spec.when == 0 ==> t.fns[k.0].timer == s.fns[k.0].timer)
  }

  lemma EnqueueIs(cfg: Config, s: State, j: Id)
    requires cfg.workerWakeup == 0 && j in s.jobs && s.jobs[j].spec.fn in s.fns && Quiet(s, s.jobs[j].spec.fn)
    ensures Queues(s, Enqueue(cfg, s, j), j)
  {
    hide Wake, Insert, Quiet, Life, Accepts;
    WakeIs(s, s.jobs[j].spec.fn);
  }

  // Submitting a new job

  function FnOr(fns: map<Name, Func>, f: Name): Func { if f in fns then fns[f] else NewFn }

  /** A new job is in the tables and at the end of its FIFO; clients and workers are as they were. */
  ghost predicate Enters(cfg: Config, s: State, t: State, job: Job) {
    var j, k := s.nextJob, HomeOf(job);
    && t == s.(jobs := t.jobs, fns := t.fns, fnWorkers := t.fnWorkers, fifo := t.fifo, uniqueIx := t.uniqueIx,
               handleIx := t.handleIx, store := t.store, nextJob := t.nextJob)
    && t.jobs == s.jobs[j := job] && t.nextJob == j + 1 && t.fifo == s.fifo[k := List(s.fifo, k) + [j]]
    && (forall g :: List(t.fnWorkers, g) == List(s.fnWorkers, g))
    && Counts(s.fns, t.fns, job) && Indexes(cfg, s, t, job)
  }

  ghost predicate Counts(before: map<Name, Func>, after: map<Name, Func>, job: Job) {
    var f := job.spec.fn;
    && after.Keys == before.Keys + {f} && (forall g :: g in before && g != f ==> after[g] == before[g])
    && after[f].jobCount == FnOr(before, f).jobCount + 1 && after[f].maxQueue == FnOr(before, f).maxQueue
    && (job.spec.when == 0 ==> after[f].timer == FnOr(before, f).timer)
  }

  ghost predicate Indexes(cfg: Config, s: State, t: State, job: Job) {
    var u, h := Bucket(cfg, job.spec.uniqueKey), Bucket(cfg, job.spec.handleKey);
    && t.uniqueIx == s.uniqueIx[u := [s.nextJob] + List(s.uniqueIx, u)]
    && t.handleIx == s.handleIx[h := [s.nextJob] + List(s.handleIx, h)]
  }

  lemma CreateIs(cfg: Config, s: State, job: Job)
    requires job.spec.fn in s.fns
    ensures var t := Create(cfg, s, job);
            && t == s.(jobs := s.jobs[s.nextJob := job], fns := t.fns, uniqueIx := t.uniqueIx, handleIx := t.handleIx,
                 nextJob := s.nextJob + 1)
            && Indexes(cfg, s, t, job)
            && t.fns == s.fns[job.spec.fn := s.fns[job.spec.fn].(jobTotal := s.fns[job.spec.fn].jobTotal + 1)]
  {
    hide Bucket, List;
  }

  lemma RecordIs(s: State, j: Id, origin: Origin)
    requires j in s.jobs && !s.jobs[j].queued
    ensures var t := Record(s, j, origin);
            t == s.(jobs := s.jobs[j := s.jobs[j].(queued := !origin.Foreground?)], store := t.store)
  {
    hide KeyOf;
    assert s.jobs[j].(queued := false) == s.jobs[j] && s.jobs[j := s.jobs[j]] == s.jobs;
    var s1 := SetJob(s, j, s.jobs[j].(queued := true));
    if origin.Background? {
      assert Record(s, j, origin) == s1.(store := s1.store + {KeyOf(s1.jobs[j])});
    } else if origin.Replayed? {
      assert Record(s, j, origin) == s1;
    } else {
      assert Record(s, j, origin) == s;
    }
  }

  lemma SameQuiet(s: State, t: State, f: Name)
    requires Quiet(s, f) && t.fnWorkers == s.fnWorkers && t.workers == s.workers && t.cons == s.cons
    ensures Quiet(t, f)
  {
    forall w | w in List(t.fnWorkers, f) ensures !Wakeable(t, w) { assert !Wakeable(s, w); }
  }

  lemma JobAddGoes(cfg: Config, s: State, f: Name, u: string, data: string, p: Priority, when: int, origin: Origin)
    requires origin != Background(false) && FindEqual(cfg, s, f, u, data).None? && !Limited(FnOr(s.fns, f), p)
    ensures var j := s.nextJob;
            JobAdd(cfg, s, f, u, data, p, when, origin) ==
              (Enqueue(cfg, Record(Create(cfg, EnsureFn(s, f), NewJob(cfg, j, f, u, data, p, when)), j, origin), j),
                  AddResult.Added(j))
  {
    hide FindEqual, Limited, Create, Record, Enqueue, NewJob, FreeJob;
    SameEqual(cfg, s, EnsureFn(s, f), f, u, data);
  }

  lemma JobAddIs(cfg: Config, s: State, f: Name, u: string, data: string, p: Priority, when: int, origin: Origin)
    requires cfg.workerWakeup == 0 && Quiet(s, f) && origin != Background(false) && FindEqual(cfg, s, f, u, data).None?
    requires !Limited(FnOr(s.fns, f), p)
    ensures var (t, r) := JobAdd(cfg, s, f, u, data, p, when, origin);
            r == AddResult.Added(s.nextJob)
                && Enters(cfg, s, t, NewJob(cfg, s.nextJob, f, u, data, p, when).(queued := !origin.Foreground?))
  {
    hide FindEqual, Limited, Create, Record, Enqueue, Indexes, Quiet, JobAdd, EnsureFn, Enters, Queues, Handle,
         UniqueKey, Truncate, CString;
    JobAddGoes(cfg, s, f, u, data, p, when, origin);
    var s0 := EnsureFn(s, f);
    var j, job := s.nextJob, NewJob(cfg, s.nextJob, f, u, data, p, when);
    CreateIs(cfg, s0, job);
    var s1 := Create(cfg, s0, job);
    RecordIs(s1, j, origin);
    var s2 := Record(s1, j, origin);
    SameQuiet(s, s2, f);
    EnqueueIs(cfg, s2, j);
    AddedSteps(cfg, s, s0, s1, s2, Enqueue(cfg, s2, j), job, job.(queued := !origin.Foreground?));
  }

  lemma AddedSteps(cfg: Config, s: State, s0: State, s1: State, s2: State, t: State, job: Job, job': Job)
    requires s0 == EnsureFn(s, job.spec.fn) && job' == job.(queued := job'.queued)
    requires s1 == s0.(jobs := s0.jobs[s0.nextJob := job], fns := s1.fns, uniqueIx := s1.uniqueIx,
               handleIx := s1.handleIx, nextJob := s0.nextJob + 1)
    requires Indexes(cfg, s0, s1, job)
    requires s1.fns == s0.fns[job.spec.fn := s0.fns[job.spec.fn].(jobTotal := s0.fns[job.spec.fn].jobTotal + 1)]
    requires s2 == s1.(jobs := s1.jobs[s.nextJob := job'], store := s2.store) && Queues(s2, t, s.nextJob)
    ensures Enters(cfg, s, t, job')
  {
    hide Indexes, List, EnsureFn, Counts;
    SameIndexes(cfg, s, s0, s1, job, job', t);
    EnsuredFns(s, job.spec.fn);
    var j := s.nextJob;
    assert s.jobs[j := job][j := job'] == s.jobs[j := job'];
    assert t.jobs == s.jobs[j := job'] && HomeOf(s2.jobs[j]) == HomeOf(job');
    CountsThrough(s.fns, s0.fns, s1.fns, t.fns, job');
  }

  lemma EnsuredFns(s: State, f: Name)
    ensures EnsureFn(s, f).fns == if f in s.fns then s.fns else s.fns[f := NewFn]
  {
    if f in s.fns { assert EnsureFn(s, f) == s; } else { assert EnsureFn(s, f) == s.(fns := s.fns[f := NewFn]); }
  }

  lemma CountsThrough(a: map<Name, Func>, b: map<Name, Func>, c: map<Name, Func>, d: map<Name, Func>, job: Job)
    requires var f := job.spec.fn;
             && b == (if f in a then a else a[f := NewFn]) && c == b[f := b[f].(jobTotal := b[f].jobTotal + 1)]
             && d.Keys == c.Keys && (forall g :: g in c && g != f ==> d[g] == c[g])
             && d[f].jobCount == c[f].jobCount + 1 && d[f].maxQueue == c[f].maxQueue
             && (job.spec.when == 0 ==> d[f].timer == c[f].timer)
    ensures Counts(a, d, job)
  {
  }

  lemma SameIndexes(cfg: Config, s: State, s0: State, s1: State, job: Job, job': Job, t: State)
    requires Indexes(cfg, s0, s1, job) && s0 == s.(fns := s0.fns) && job'.spec == job.spec
    requires t.uniqueIx == s1.uniqueIx && t.handleIx == s1.handleIx
    ensures Indexes(cfg, s, t, job')
  {
    hide Bucket, List;
  }

  lemma SameEqual(cfg: Config, s: State, t: State, f: Name, u: string, data: string)
    requires t == s.(fns := t.fns)
    ensures FindEqual(cfg, t, f, u, data) == FindEqual(cfg, s, f, u, data)
  {}

  /** The client of a foreground job is attached to it. */
  ghost predicate Attached(s: State, t: State, c: Id, j: Id) {
    var cl := s.nextClient;
    && t == s.(clients := s.clients[cl := Client(c, j)], conClients := t.conClients, jobClients := t.jobClients,
         nextClient := cl + 1)
    && t.conClients == s.conClients[c := [cl] + List(s.conClients, c)]
    && t.jobClients == s.jobClients[j := [cl] + List(s.jobClients, j)]
  }

  /** A job is submitted that the server does not know yet. */
  lemma SubmitIs(cfg: Config, s: State, c: Id, f: Name, u: string, data: string, p: Priority, when: int, origin: Origin)
    returns (s1: State, s2: State)
    requires Served(s, c) && |u| <= MAX_UNIQUE_SIZE && cfg.workerWakeup == 0 && Quiet(s, f)
    requires origin == Background(true) || (origin == Foreground && when == 0)
    requires FindEqual(cfg, s, f, u, data).None? && !Limited(FnOr(s.fns, f), p)
    ensures var e := Submit(c, f, u, data, p, when, origin);
            Enabled(cfg, s, e) && Step(cfg, s, e) == s2.(out := s2.out + [Created(c, s.nextJob)])
    ensures Enters(cfg, s, s1, NewJob(cfg, s.nextJob, f, u, data, p, when).(queued := !origin.Foreground?))
    ensures if origin.Foreground? then Attached(s1, s2, c, s.nextJob) else s2 == s1
  {
    hide FindEqual, Limited, JobAdd, Enters, NewJob, List, TakeHangs, PeekHangs, Quiet;
    JobAddIs(cfg, s, f, u, data, p, when, origin);
    s1 := JobAdd(cfg, s, f, u, data, p, when, origin).0;
    AddedJob(cfg, s, s1, NewJob(cfg, s.nextJob, f, u, data, p, when).(queued := !origin.Foreground?));
    s2 := if origin.Foreground? then AddClient(s1, c, s.nextJob) else s1;
  }

  lemma AddedJob(cfg: Config, s: State, t: State, job: Job)
    requires Enters(cfg, s, t, job)
    ensures s.nextJob in t.jobs && t.cons == s.cons
  {}

  /** A foreground job is submitted that the server finds to be one it has. */
  lemma JoinIs(cfg: Config, s: State, c: Id, f: Name, u: string, data: string, p: Priority, j: Id) returns (s1: State)
    requires Served(s, c) && |u| <= MAX_UNIQUE_SIZE && f in s.fns && FindEqual(cfg, s, f, u, data) == Some(j)
               && j in s.jobs
    ensures var e := Submit(c, f, u, data, p, 0, Foreground);
            Enabled(cfg, s, e) && Step(cfg, s, e) == s1.(out := s1.out + [Created(c, j)])
    ensures Attached(s, s1, c, j)
  {
    hide FindEqual, TakeHangs, PeekHangs, List;
    s1 := AddClient(s, c, j);
  }

  // Grabbing a job of high priority

  lemma {:induction false} PickEnds(cfg: Config, s: State, c: Id, ps: seq<Priority>)
    requires !cfg.roundRobin
    ensures !PickHangs(cfg, s, c, ps)
    decreases |ps|
  {
    hide Scan, Skips, Waits, FirstReady;
    if ps != [] { PickEnds(cfg, Rotated(cfg, s, c, ps[0]), c, ps[1..]); }
  }

  /** Without round robin, the search for a job ends. */
  lemma {:induction false} TakeEnds(cfg: Config, s: State, c: Id)
    requires !cfg.roundRobin
    ensures !TakeHangs(cfg, s, c)
    decreases |s.jobs|
  {
    hide Pick, PickHangs, FreeJob;
    PickEnds(cfg, s, c, PRIORITIES);
    var (s1, j) := Pick(cfg, s, c, PRIORITIES);
    if j.Some? && s1.jobs[j.value].ignore && s1.jobs[j.value].spec.fn in s1.fns {
      FreeJobKeys(cfg, s1, j.value);
      Shrinks(s, FreeJob(cfg, s1, j.value), j.value);
      TakeEnds(cfg, FreeJob(cfg, s1, j.value), c);
    }
  }

  lemma {:induction false} PeekEnds(cfg: Config, s: State, c: Id)
    requires !cfg.roundRobin
    ensures !PeekHangs(cfg, s, c)
    decreases |s.jobs|
  {
    hide Look, Take, TakeHangs, FreeJob;
    var j := Look(s, List(s.conWorkers, c));
    if j.Some? && j.value in s.jobs && s.jobs[j.value].ignore {
      var s0 := SetJob(s, j.value, s.jobs[j.value].(ignore := false));
      TakeEnds(cfg, s0, c);
      var (s1, t) := Take(cfg, s0, c);
      if t.Some? && s1.jobs[t.value].spec.fn in s1.fns {
        FreeJobKeys(cfg, s1, t.value);
        Shrinks(s, FreeJob(cfg, s1, t.value), t.value);
        PeekEnds(cfg, FreeJob(cfg, s1, t.value), c);
      }
    }
  }

  /** Worker `w` is the first of connection `c` that has a due job of high priority, and job `j` is it. */
  ghost predicate Offers(s: State, c: Id, w: Id, j: Id) {
    var ws := List(s.conWorkers, c);
    && FirstReady(s, ws, High) < |ws| && ws[FirstReady(s, ws, High)] == w && w in s.workers
    && var k := (s.workers[w].fn, High);
       && k in s.fifo && FirstDue(s.jobs, s.fifo[k], s.clock) < |s.fifo[k]|
       && s.fifo[k][FirstDue(s.jobs, s.fifo[k], s.clock)] == j && j in s.jobs && k.0 in s.fns
  }

  /** The job leaves its FIFO and runs. */
  ghost predicate Hands(s: State, t: State, w: Id, j: Id) {
    && w in s.workers
    && var k := (s.workers[w].fn, High);
       && k in s.fifo && FirstDue(s.jobs, s.fifo[k], s.clock) < |s.fifo[k]|
       && t == s.(conWorkers := t.conWorkers, fifo := t.fifo, runs := t.runs, running := t.running, fns := t.fns)
       && (forall d :: List(t.conWorkers, d) == List(s.conWorkers, d)) && t.fns.Keys == s.fns.Keys
       && t.fifo == s.fifo[k := RemoveAt(s.fifo[k], FirstDue(s.jobs, s.fifo[k], s.clock))]
       && t.runs == s.runs[j := w] && t.running == s.running[w := [j] + List(s.running, w)]
       && (forall g :: g in s.fns ==> t.fns[g].maxQueue == s.fns[g].maxQueue && t.fns[g].timer == s.fns[g].timer)
  }

  lemma PickIs(cfg: Config, s: State, c: Id, w: Id, j: Id)
    requires !cfg.roundRobin && Offers(s, c, w, j)
    ensures var r := Pick(cfg, s, c, PRIORITIES); r.1 == Some(j) && Hands(s, r.0, w, j)
  {
    hide FirstReady, FirstDue, Skips, Waits, RemoveAt, Classify;
    assert PRIORITIES[0] == High;
    var k := (s.workers[w].fn, High);
    var r := Pick(cfg, s, c, PRIORITIES);
    assert Scan(cfg, s, List(s.conWorkers, c), High) == (List(s.conWorkers, c), Some(w));
    assert r == (Attach(Rotated(cfg, s, c, High), k, FirstDue(s.jobs, s.fifo[k], s.clock), w), Some(j));
  }

  lemma AwakeOffers(s: State, c: Id, w: Id, j: Id)
    requires Offers(s, c, w, j)
    ensures Offers(Awake(s, c), c, w, j)
  {
    SameReady(s, Awake(s, c), List(s.conWorkers, c));
    hide FirstReady;
  }

  lemma {:induction false} SameReady(s: State, t: State, ws: seq<Id>)
    requires t == s.(cons := t.cons)
    ensures FirstReady(t, ws, High) == FirstReady(s, ws, High)
  {
    if ws != [] {
      assert Classify(t, ws[0], High) == Classify(s, ws[0], High);
      SameReady(s, t, ws[1..]);
    }
  }

  /** GRAB_JOB hands out the job; `u` is the state before it is assigned. */
  lemma GrabIs(cfg: Config, s: State, c: Id, w: Id, j: Id) returns (u: State)
    requires !cfg.roundRobin && Served(s, c) && Offers(s, c, w, j) && !s.jobs[j].ignore
    ensures Hands(Awake(s, c), u, w, j)
    ensures Enabled(cfg, s, Grab(c, true)) && Step(cfg, s, Grab(c, true)) == ArmTimer(Emit(u, Assign(c, j)), c, j)
  {
    hide Offers, Hands, Pick, TakeHangs, PeekHangs, FreeJob, Registered;
    TakeEnds(cfg, Awake(s, c), c);
    AwakeOffers(s, c, w, j);
    PickIs(cfg, Awake(s, c), c, w, j);
    u := Pick(cfg, Awake(s, c), c, PRIORITIES).0;
    Unignored(cfg, Awake(s, c), c, j);
  }

  lemma Unignored(cfg: Config, s: State, c: Id, j: Id)
    requires Pick(cfg, s, c, PRIORITIES).1 == Some(j) && j in s.jobs && !s.jobs[j].ignore
    ensures Take(cfg, s, c) == Pick(cfg, s, c, PRIORITIES)
  {
    hide Pick, FreeJob;
  }

  lemma ArmIs(s: State, c: Id, j: Id, w: Id)
    requires c in s.cons && j in s.jobs && w in s.workers && Registered(s, c, s.jobs[j].spec.fn) == [w]
    ensures ArmTimer(s, c, j) == SetCon(s, c, s.cons[c].(timer := if s.workers[w].timeout > 0 then Some(j) else None))
  {
    hide Registered;
  }

  /** The only worker of a connection is the one registered for its function. */
  lemma OnlyRegistered(s: State, c: Id, w: Id)
    requires List(s.conWorkers, c) == [w] && w in s.workers
    ensures Registered(s, c, s.workers[w].fn) == [w]
  {
    var f := s.workers[w].fn;
    FilterOne(v => v in s.workers && s.workers[v].fn == f, w);
  }

  lemma FilterOne<T>(p: T -> bool, x: T)
    requires p(x)
    ensures Filter(p, [x]) == [x]
  {
    assert [x][1..] == [] && Filter(p, [x][1..]) == [];
  }

  // Queueing again

  /** A running job leaves its worker and is queued again. */
  ghost predicate Requeues(s: State, t: State, j: Id) {
    && j in s.jobs && j in t.jobs && t.jobs == s.jobs[j := t.jobs[j]] && t.jobs[j] == Again(s.jobs[j])
    && t == s.(jobs := t.jobs, runs := s.runs - {j}, running := t.running, fns := t.fns, fnWorkers := t.fnWorkers,
         fifo := t.fifo)
    && (forall g :: List(t.fnWorkers, g) == List(s.fnWorkers, g)) && t.fns.Keys == s.fns.Keys
    && (forall g :: g in s.fns ==> t.fns[g].maxQueue == s.fns[g].maxQueue)
    && var k := HomeOf(s.jobs[j]); t.fifo == s.fifo[k := List(s.fifo, k) + [j]]
  }

  lemma RequeueIs(cfg: Config, s: State, j: Id)
    requires cfg.workerWakeup == 0 && cfg.jobRetries < 0 && j in s.jobs && j in s.runs && s.jobs[j].spec.fn in s.fns
    requires Quiet(s, s.jobs[j].spec.fn)
    ensures Requeues(s, JobQueue(cfg, s, j), j)
  {
    hide Enqueue, Quiet, Again, Remove, Drop, Queues;
    var s1 := Detach(Retried(s, j), j);
    assert JobQueue(cfg, s, j) == Enqueue(cfg, s1, j);
    SameQuiet(s, s1, s.jobs[j].spec.fn);
    EnqueueIs(cfg, s1, j);
    Requeued(s, s1, Enqueue(cfg, s1, j), j);
  }

  lemma Requeued(s: State, s1: State, t: State, j: Id)
    requires j in s.jobs && j in s.runs && s.jobs[j].spec.fn in s.fns && s1 == Detach(Retried(s, j), j)
               && Queues(s1, t, j)
    ensures Requeues(s, t, j)
  {
    hide List, Remove, Again;
  }

  /** A worker with one job is freed. */
  lemma FreeIs(cfg: Config, s: State, w: Id, j: Id)
    requires w in s.workers && List(s.running, w) == [j]
    ensures FreeWorkers(cfg, s, [w]) == DelWorker(JobQueue(cfg, s, j), w)
  {
    hide JobQueue, DelWorker;
    assert [w][1..] == [] && [j][1..] == [];
    assert RequeueAll(cfg, s, [j]) == JobQueue(cfg, s, j);
    assert FreeWorkers(cfg, s, [w]) == FreeWorker(cfg, s, w);
  }
}
