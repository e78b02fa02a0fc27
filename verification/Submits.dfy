/** What a submission does: it joins a job that is there, is refused, or makes a new job. */
module Submits {
  import opened Seqs
  import opened Ownership
  import opened Scheduler
  import opened Tables
  import opened Uniques
  import opened Retries
  import opened Traces
  import opened Timers
  import opened Wakeups
  import opened Invariant
  import opened Records
  import opened JobOps
  import opened Selection
  import opened Commands
  import opened Steps
  import opened Taking
  import opened Requeues

  // The search for an equal job

  /** The job is one for function `f` that a submission of `u` with `data` is taken to be about: by its data when the
      unique is "-", by its unique otherwise. */
  ghost predicate Matches(cfg: Config, job: Job, f: Name, u: string, data: string) {
    && job.spec.fn == f && job.spec.uniqueKey == cfg.hash(if u == "-" then data else u)
    && if u == "-" then job.spec.data == data else job.spec.unique == CString(u)
  }

  ghost predicate Nameless(u: string, data: string) { u == "" || (u == "-" && data == "") }

  lemma {:induction false} FindNone(jobs: Jobs, chain: seq<Id>, p: Job -> bool, j: Id)
    requires Find(jobs, chain, p).None? && j in chain && j in jobs
    ensures !p(jobs[j])
  {
    assert chain == [chain[0]] + chain[1..];
    if j != chain[0] { FindNone(jobs, chain[1..], p, j); }
  }

  /** The search finds a job that matches whenever there is one. */
  lemma SearchFinds(cfg: Config, s: State, x: Phase, f: Name, u: string, data: string)
    requires Inv(cfg, s, x)
    ensures var r := FindEqual(cfg, s, f, u, data);
            && (r.Some? ==> !Nameless(u, data) && r.value in s.jobs && Matches(cfg, s.jobs[r.value], f, u, data))
            && (r.None? && !Nameless(u, data) ==> forall j :: j in s.jobs ==> !Matches(cfg, s.jobs[j], f, u, data))
  {
    hide Inv, Bucket, CString;
    Indexed(cfg, s, x);
    if !Nameless(u, data) {
      var key, byData := UniqueKey(cfg, u, data), u == "-";
      var text := if byData then data else CString(u);
      var p := (job: Job) => job.spec.fn == f && job.spec.uniqueKey == key
                   && (if byData then job.spec.data == text else job.spec.unique == text);
      var chain := List(s.uniqueIx, Bucket(cfg, key));
      FindSpec(s.jobs, chain, p);
      if Find(s.jobs, chain, p).None? {
        forall j | j in s.jobs ensures !Matches(cfg, s.jobs[j], f, u, data) {
          if s.jobs[j].spec.uniqueKey == key {
            assert UniqueBuckets(cfg, s.jobs)[j] == Bucket(cfg, key);
            FindNone(s.jobs, chain, p, j);
          }
        }
      }
    }
  }

  // The four answers

  /** The function may not have one more job of the priority. */
  ghost predicate AtLimit(s: State, f: Name, p: Priority) {
    f in s.fns && p in s.fns[f].maxQueue && 0 < s.fns[f].maxQueue[p] <= |JobsOf(s.jobs, f)|
  }

  lemma Limits(cfg: Config, s: State, x: Phase, f: Name, p: Priority)
    requires Inv(cfg, s, x)
    ensures Limited(EnsureFn(s, f).fns[f], p) <==> AtLimit(s, f, p)
  {
    hide ListsOk, RefsOk, KeysOk, Durable, RetriesOk, TraceOk, TimersOk, WatchOk, JobsOf, RunningOf;
    if f in s.fns { assert CountOk(s.fns[f], f, s.jobs, s.runs, s.fifo); }
  }

  /** The jobs, their places and the persistent queue are as they were. */
  ghost predicate NoNewJob(s: State, t: State) {
    && t.jobs == s.jobs && t.runs == s.runs && t.fifo == s.fifo && t.store == s.store
  }

  /** Client `s.nextClient`, of connection `c`, waits for job `j` from now on; nobody else is affected. */
  ghost predicate Joins(s: State, t: State, c: Id, j: Id) {
    && t.clients == s.clients[s.nextClient := Client(c, j)]
    && t.jobClients == s.jobClients[j := [s.nextClient] + List(s.jobClients, j)]
  }

  ghost predicate Stays(s: State, t: State) { t.clients == s.clients && t.jobClients == s.jobClients }

  /** The job that a submission, or a replay from the persistent queue, makes. */
  ghost predicate Made(cfg: Config, job: Job, j: Id, f: Name, u: string, data: string, p: Priority, when: int,
      origin: Origin) {
    && job.spec.fn == f && job.spec.priority == p && job.spec.when == when && job.spec.data == data
    && job.spec.unique == Truncate(CString(u), MAX_UNIQUE_SIZE - 1) && job.spec.uniqueLength == |u|
    && job.spec.handle == Handle(cfg.prefix, j + 1)
    && job.retries == 0 && !job.ignore && job.queued == !origin.Foreground?
  }

  /** A new job is the last of its FIFO, and a background job is entered into the persistent queue; all other jobs are
      as they were. */
  ghost predicate Adds(cfg: Config, s: State, t: State, f: Name, u: string, data: string, p: Priority, when: int,
      origin: Origin) {
    var j := s.nextJob;
    && j in t.jobs && t.jobs == s.jobs[j := t.jobs[j]] && Made(cfg, t.jobs[j], j, f, u, data, p, when, origin)
    && t.runs == s.runs && t.fifo == s.fifo[(f, p) := List(s.fifo, (f, p)) + [j]]
    && t.store == if origin.Background? then s.store + {(t.jobs[j].spec.unique, |u|, f)} else s.store
  }

  ghost predicate AddsFor(cfg: Config, s: State, t: State, e: Event)
    requires e.Submit?
  {
    Adds(cfg, s, t, e.fn, e.unique, e.data, e.priority, e.when, e.origin)
  }

  /** Only NOOPs are sent before the answer `o`. */
  ghost predicate Replies(s: State, t: State, o: Output) {
    && |s.out| < |t.out| && t.out[..|s.out|] == s.out && t.out[|t.out| - 1] == o
    && forall i :: |s.out| <= i < |t.out| - 1 ==> t.out[i].Noop?
  }

  /** A foreground client waits for the job it was told. */
  ghost predicate Answers(s: State, t: State, e: Event, j: Id)
    requires e.Submit?
  {
    Replies(s, t, Created(e.con, j)) && if e.origin.Foreground? then Joins(s, t, e.con, j) else Stays(s, t)
  }

  lemma EnsureIs(s: State, f: Name)
    ensures EnsureFn(s, f) == s.(fns := EnsureFn(s, f).fns) && f in EnsureFn(s, f).fns
  {}

  lemma EnsureKeeps(s: State, f: Name)
    ensures var t := EnsureFn(s, f);
            && NoNewJob(s, t) && Stays(s, t) && t.out == s.out && t.nextClient == s.nextClient && t.cons == s.cons
  {}

  lemma SameSearch(cfg: Config, s: State, f: Name, u: string, data: string)
    ensures FindEqual(cfg, EnsureFn(s, f), f, u, data) == FindEqual(cfg, s, f, u, data)
  {
    EnsureIs(s, f);
    hide EnsureFn;
  }

  /** A submission with a unique of more than 64 bytes is refused. */
  lemma SubmitTooLong(cfg: Config, s: State, e: Event)
    requires e.Submit? && Enabled(cfg, s, e) && |e.unique| > MAX_UNIQUE_SIZE
    ensures Step(cfg, s, e) == s.(out := s.out + [Error(e.con)])
  {
    hide JobAdd, TakeHangs, PeekHangs;
  }

  lemma JobAddStays(cfg: Config, s: State, x: Phase, f: Name, u: string, data: string, p: Priority, when: int,
      origin: Origin)
    requires Inv(cfg, s, x) && (FindEqual(cfg, s, f, u, data).Some? || AtLimit(s, f, p))
    ensures var r := FindEqual(cfg, s, f, u, data);
            JobAdd(cfg, s, f, u, data, p, when, origin) == (EnsureFn(s, f), if r.Some? then Exists(r.value) else Full)
  {
    hide Inv, FindEqual, EnsureFn, Limited, Create, Record, Enqueue, FreeJob, NewJob, AtLimit;
    SameSearch(cfg, s, f, u, data);
    Limits(cfg, s, x, f, p);
  }

  /** A submission that matches a job: there is no new one, and the client is told that one. */
  lemma SubmitJoins(cfg: Config, s: State, x: Phase, e: Event, j: Id)
    requires Inv(cfg, s, x) && e.Submit? && Enabled(cfg, s, e) && |e.unique| <= MAX_UNIQUE_SIZE
    requires FindEqual(cfg, s, e.fn, e.unique, e.data) == Some(j)
    ensures var t := Step(cfg, s, e); NoNewJob(s, t) && Answers(s, t, e, j)
  {
    hide Inv, FindEqual, JobAdd, EnsureFn, AddClient, Answers, NoNewJob, Joins, Stays, TakeHangs, PeekHangs;
    JobAddStays(cfg, s, x, e.fn, e.unique, e.data, e.priority, e.when, e.origin);
    SearchFinds(cfg, s, x, e.fn, e.unique, e.data);
    EnsureKeeps(s, e.fn);
    JoinsNow(s, EnsureFn(s, e.fn), e, j);
  }

  lemma JoinsNow(s: State, s1: State, e: Event, j: Id)
    requires e.Submit? && NoNewJob(s, s1) && Stays(s, s1) && s1.out == s.out && s1.nextClient == s.nextClient
    requires s1.cons == s.cons && e.con in s.cons && j in s.jobs
    ensures var t := Emit(if e.origin.Foreground? then AddClient(s1, e.con, j) else s1, Created(e.con, j));
            NoNewJob(s, t) && Answers(s, t, e, j)
  {
    hide AddClient;
    AddsClient(s1, e.con, j);
  }

  lemma AddsClient(s: State, c: Id, j: Id)
    requires c in s.cons && j in s.jobs
    ensures var t := AddClient(s, c, j); NoNewJob(s, t) && Joins(s, t, c, j) && t.out == s.out
  {
    hide List;
  }

  /** A submission that matches none is refused when the function is at its limit for the priority, or the persistent
      queue fails. */
  lemma SubmitRefused(cfg: Config, s: State, x: Phase, e: Event)
    requires Inv(cfg, s, x) && Steady(x) && e.Submit? && Enabled(cfg, s, e) && |e.unique| <= MAX_UNIQUE_SIZE
    requires FindEqual(cfg, s, e.fn, e.unique, e.data).None?
    requires AtLimit(s, e.fn, e.priority) || e.origin == Background(false)
    ensures var t := Step(cfg, s, e);
            && NoNewJob(s, t) && (forall a :: List(t.jobClients, a) == List(s.jobClients, a))
            && t.out == s.out + [Error(e.con)]
  {
    hide Inv, FindEqual, EnsureFn, Limited, Create, Record, Enqueue, FreeJob, AtLimit, NewJob, TakeHangs, PeekHangs;
    SameSearch(cfg, s, e.fn, e.unique, e.data);
    Limits(cfg, s, x, e.fn, e.priority);
    EnsureIs(s, e.fn);
    if !AtLimit(s, e.fn, e.priority) { Unmade(cfg, s, x, e); }
  }

  lemma Unmade(cfg: Config, s: State, x: Phase, e: Event)
    requires Inv(cfg, s, x) && Steady(x) && e.Submit? && FindEqual(cfg, s, e.fn, e.unique, e.data).None?
    ensures var s0 := EnsureFn(s, e.fn);
            var job := NewJob(cfg, s0.nextJob, e.fn, e.unique, e.data, e.priority, e.when);
            var t := FreeJob(cfg, Create(cfg, s0, job), s0.nextJob);
            && NoNewJob(s, t) && t.out == s.out && (forall a :: List(t.jobClients, a) == List(s.jobClients, a))
  {
    hide Inv, FindEqual, EnsureFn, Create, FreeJob, NewJob;
    var s0 := EnsureFn(s, e.fn);
    EnsureIs(s, e.fn);
    EnsureFnInv(cfg, s, x, e.fn);
    SameSearch(cfg, s, e.fn, e.unique, e.data);
    NewJobInv(cfg, s0, x, e.fn, e.unique, e.data, e.priority, e.when);
    NewJobFn(cfg, s0.nextJob, e.fn, e.unique, e.data, e.priority, e.when);
    var j, job := s0.nextJob, NewJob(cfg, s0.nextJob, e.fn, e.unique, e.data, e.priority, e.when);
    var s1 := Create(cfg, s0, job);
    CreateIs(cfg, s0, job);
    FreeJobOnly(cfg, s1, x.(floating := {j}), j);
    FreeJobKeepsStore(cfg, s1, j);
    NewNumber(cfg, s0, x);
    assert s0.jobs[j := job] - {j} == s0.jobs && s0.runs - {j} == s0.runs;
    forall a ensures List(FreeJob(cfg, s1, j).jobClients, a) == List(s.jobClients, a) {
      if a != j {
        FreeJobLists(cfg, s1, x.(floating := {j}), j, a);
      } else {
        Gone(cfg, s1, x, j);
      }
    }
  }

  lemma CreateIs(cfg: Config, s: State, job: Job)
    requires job.spec.fn in s.fns
    ensures var t := Create(cfg, s, job);
              t == s.(jobs := s.jobs[s.nextJob := job], fns := t.fns, uniqueIx := t.uniqueIx, handleIx := t.handleIx,
                      nextJob := s.nextJob + 1) && t.fns.Keys == s.fns.Keys
  {
    hide Bucket, List;
  }

  lemma NewNumber(cfg: Config, s: State, x: Phase)
    requires Inv(cfg, s, x) && x.floating == {}
    ensures s.nextJob !in s.jobs && s.nextJob !in s.runs && List(s.jobClients, s.nextJob) == []
  {
    hide Inv;
    Floating(cfg, s, x, s.nextJob);
    NoClients(cfg, s, x, s.nextJob);
  }

  lemma NoClients(cfg: Config, s: State, x: Phase, j: Id)
    requires Inv(cfg, s, x) && j !in s.jobs
    ensures List(s.jobClients, j) == []
  {
    hide CountsOk, KeysOk, Durable, RetriesOk, TraceOk, TimersOk, WatchOk, JobRefs, RunRefs, WorkerRefs, ConRefs;
    OwnedNone(Owner(s.clients, ClientJob), s.jobClients, j);
  }

  lemma Gone(cfg: Config, s: State, x: Phase, j: Id)
    requires Inv(cfg, s, x.(floating := {j})) && Steady(x) && j in s.jobs && s.jobs[j].spec.fn in s.fns
    ensures List(FreeJob(cfg, s, j).jobClients, j) == []
  {
    hide Inv, FreeJob;
    FreeJobInv(cfg, s, x.(floating := {j}), j);
    FreeJobKeys(cfg, s, j);
    NoClients(cfg, FreeJob(cfg, s, j), x, j);
  }

  lemma MakesJob(cfg: Config, s: State, s0: State, f: Name, u: string, data: string, p: Priority, when: int,
      origin: Origin)
    requires s0 == s.(fns := s0.fns) && f in s0.fns && origin != Background(false)
    ensures var job := NewJob(cfg, s0.nextJob, f, u, data, p, when);
            var t := Enqueue(cfg, Record(Create(cfg, s0, job), s0.nextJob, origin), s0.nextJob);
            && Adds(cfg, s, t, f, u, data, p, when, origin) && OnlyNoops(s, t) && Stays(s, t)
            && t.nextClient == s.nextClient && t.cons.Keys == s.cons.Keys
  {
    hide Create, Record, Enqueue, Handle, UniqueKey, Truncate, CString;
    var job, j := NewJob(cfg, s0.nextJob, f, u, data, p, when), s0.nextJob;
    CreateIs(cfg, s0, job);
    var s1 := Create(cfg, s0, job);
    Records1(s1, j, origin);
    var s2 := Record(s1, j, origin);
    EnqueueIs(cfg, s2, j);
    EnqueueCons(cfg, s2, j);
    assert s0.jobs[j := job][j := s2.jobs[j]] == s0.jobs[j := s2.jobs[j]];
    SameNoops(s, s2, Enqueue(cfg, s2, j));
  }

  lemma Records1(s: State, j: Id, origin: Origin)
    requires j in s.jobs && !s.jobs[j].queued
    ensures var t := Record(s, j, origin); var spec := s.jobs[j].spec;
            && t == s.(jobs := s.jobs[j := s.jobs[j].(queued := !origin.Foreground?)], store := t.store)
            && t.store == if origin.Background? then s.store + {(spec.unique, spec.uniqueLength, spec.fn)} else s.store
  {
    assert s.jobs[j].(queued := false) == s.jobs[j] && s.jobs[j := s.jobs[j]] == s.jobs;
  }

  lemma EnqueueCons(cfg: Config, s: State, j: Id)
    ensures var t := Enqueue(cfg, s, j); t.cons.Keys == s.cons.Keys && t.nextClient == s.nextClient
  {
    hide Wake, Append, Accepts, Life;
    if j in s.jobs {
      var t := Wake(s, s.jobs[j].spec.fn, cfg.workerWakeup);
      forall c ensures c in t.cons <==> c in s.cons { StillDead(s, t, c); }
    }
  }

  lemma JobAddMakes(cfg: Config, s: State, x: Phase, f: Name, u: string, data: string, p: Priority, when: int,
      origin: Origin)
    requires Inv(cfg, s, x) && FindEqual(cfg, s, f, u, data).None? && !AtLimit(s, f, p) && origin != Background(false)
    ensures var (t, r) := JobAdd(cfg, s, f, u, data, p, when, origin);
            && r == Added(s.nextJob)
            && Adds(cfg, s, t, f, u, data, p, when, origin) && OnlyNoops(s, t) && Stays(s, t)
            && t.nextClient == s.nextClient && t.cons.Keys == s.cons.Keys
  {
    hide Inv, FindEqual, EnsureFn, Limited, Create, Record, Enqueue, FreeJob, AtLimit, NewJob, Adds, OnlyNoops;
    SameSearch(cfg, s, f, u, data);
    Limits(cfg, s, x, f, p);
    EnsureIs(s, f);
    MakesJob(cfg, s, EnsureFn(s, f), f, u, data, p, when, origin);
  }

  /** Otherwise there is a new job, and the client is told it. */
  lemma SubmitAdds(cfg: Config, s: State, x: Phase, e: Event)
    requires Inv(cfg, s, x) && e.Submit? && Enabled(cfg, s, e) && |e.unique| <= MAX_UNIQUE_SIZE
    requires FindEqual(cfg, s, e.fn, e.unique, e.data).None?
    requires !AtLimit(s, e.fn, e.priority) && e.origin != Background(false)
    ensures var t := Step(cfg, s, e); AddsFor(cfg, s, t, e) && Answers(s, t, e, s.nextJob)
  {
    hide Inv, FindEqual, JobAdd, AtLimit, Adds, OnlyNoops, AddClient, Answers, TakeHangs, PeekHangs;
    JobAddMakes(cfg, s, x, e.fn, e.unique, e.data, e.priority, e.when, e.origin);
    AddsNow(cfg, s, JobAdd(cfg, s, e.fn, e.unique, e.data, e.priority, e.when, e.origin).0, e);
  }

  lemma AddsNow(cfg: Config, s: State, s1: State, e: Event)
    requires e.Submit? && AddsFor(cfg, s, s1, e) && OnlyNoops(s, s1) && Stays(s, s1)
    requires s1.nextClient == s.nextClient && s1.cons.Keys == s.cons.Keys && e.con in s.cons
    ensures var j := s.nextJob;
            var t := Emit(if e.origin.Foreground? then AddClient(s1, e.con, j) else s1, Created(e.con, j));
            AddsFor(cfg, s, t, e) && Answers(s, t, e, j)
  {
    hide Made, AddClient;
    AddsClient(s1, e.con, s.nextJob);
  }

  /** Some job matches the submission. */
  ghost predicate Known(cfg: Config, s: State, e: Event)
    requires e.Submit?
  {
    !Nameless(e.unique, e.data) && exists j :: j in s.jobs && Matches(cfg, s.jobs[j], e.fn, e.unique, e.data)
  }

  /** What a submission comes to: too long a unique is an error; a job that matches is joined; a function at its limit,
      or a persistent queue that fails, is an error; else there is a new job, as submitted. */
  lemma SubmitAnswers(cfg: Config, s: State, x: Phase, e: Event)
    requires Inv(cfg, s, x) && Steady(x) && e.Submit? && Enabled(cfg, s, e)
    ensures var t := Step(cfg, s, e);
            if |e.unique| > MAX_UNIQUE_SIZE then t == s.(out := s.out + [Error(e.con)])
            else if Known(cfg, s, e) then NoNewJob(s, t) && exists j ::
                 j in s.jobs && Matches(cfg, s.jobs[j], e.fn, e.unique, e.data) && Answers(s, t, e, j)
            else if AtLimit(s, e.fn, e.priority) || e.origin == Background(false)
            then NoNewJob(s, t) && (forall a :: List(t.jobClients, a) == List(s.jobClients, a))
                   && t.out == s.out + [Error(e.con)]
            else AddsFor(cfg, s, t, e) && Answers(s, t, e, s.nextJob)
  {
    hide Inv, FindEqual, Matches, NoNewJob, Answers, AtLimit, AddsFor, Step, Enabled;
    if |e.unique| > MAX_UNIQUE_SIZE {
      SubmitTooLong(cfg, s, e);
    } else {
      var r := FindEqual(cfg, s, e.fn, e.unique, e.data);
      SearchFinds(cfg, s, x, e.fn, e.unique, e.data);
      if r.Some? {
        SubmitJoins(cfg, s, x, e, r.value);
      } else if AtLimit(s, e.fn, e.priority) || e.origin == Background(false) {
        SubmitRefused(cfg, s, x, e);
      } else {
        SubmitAdds(cfg, s, x, e);
      }
    }
  }

  /** A job from the persistent queue is replayed: unless one that matches is there, or the function is at its limit,
      there is a new job, and the persistent queue is as it was. */
  lemma ReplayAnswers(cfg: Config, s: State, x: Phase, e: Event)
    requires Inv(cfg, s, x) && e.Replay? && Enabled(cfg, s, e)
    ensures var t := Step(cfg, s, e);
            && OnlyNoops(s, t) && Stays(s, t)
            && if FindEqual(cfg, s, e.fn, e.unique, e.data).Some? || AtLimit(s, e.fn, e.priority) then NoNewJob(s, t)
               else Adds(cfg, s, t, e.fn, e.unique, e.data, e.priority, e.when, Replayed)
  {
    hide Inv, FindEqual, JobAdd, EnsureFn, AtLimit, Adds, TakeHangs, PeekHangs, Truncate, CString;
    if FindEqual(cfg, s, e.fn, e.unique, e.data).Some? || AtLimit(s, e.fn, e.priority) {
      JobAddStays(cfg, s, x, e.fn, e.unique, e.data, e.priority, e.when, Replayed);
      EnsureKeeps(s, e.fn);
    } else {
      JobAddMakes(cfg, s, x, e.fn, e.unique, e.data, e.priority, e.when, Replayed);
    }
  }

  /** From the moment a limit is set, it holds: a submission to a known function that matches no job is refused exactly
      when the function has that many jobs already. */
  lemma LimitHolds(cfg: Config, s: State, f: Name, limits: map<Priority, nat>, p: Priority)
    requires f in s.fns
    ensures AtLimit(Step(cfg, s, MaxQueue(f, limits)), f, p) <==> p in limits && 0 < limits[p] <= |JobsOf(s.jobs, f)|
    ensures forall g :: g != f ==> (AtLimit(Step(cfg, s, MaxQueue(f, limits)), g, p) <==> AtLimit(s, g, p))
  {
    hide JobsOf, TakeHangs, PeekHangs;
  }
}
