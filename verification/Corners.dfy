/** More runs at whose end a promise is broken. */
module Corners {
  import opened Seqs
  import opened Scheduler
  import opened Uniques
  import opened Wakeups
  import opened Invariant
  import opened JobOps
  import opened Selection
  import opened Commands
  import opened Steps
  import opened Effects
  import opened Scenes
  import opened Endings
  import opened Taking
  import opened Hanging
  import Naps

  // Names that are too long

  /** One connection, and no workers. */
  ghost predicate Idle1(s: State) {
    && s.cons == map[0 := IDLE] && s.workers == map[] && s.fnWorkers == map[] && s.conWorkers == map[] && s.fns == map[]
    && s.jobs == map[] && s.fifo == map[] && s.uniqueIx == map[] && s.handleIx == map[] && s.nextJob == 0
         && s.clock == 0 && s.nextWorker == 0
    && s.clients == map[] && s.conClients == map[] && s.jobClients == map[] && s.nextClient == 0 && s.out == []
    && s.runs == map[]
  }

  lemma Alone(cfg: Config) returns (s: State)
    requires cfg.jobRetries <= 255 && !cfg.exceptions
    ensures Leads(cfg, [Connect(0)], s) && Idle1(s)
  {
    hide Leads, Step, Enabled;
    Begin(cfg);
    ConnectIs(cfg, Init({}, 0), 0);
    Then(cfg, [], Init({}, 0), Connect(0));
    s := Step(cfg, Init({}, 0), Connect(0));
    assert [] + [Connect(0)] == [Connect(0)];
    assert IDLE.(exceptions := false) == IDLE;
  }

  function Background1(f: Name, u: string, when: int): Event { Submit(0, f, u, "", High, when, Background(true)) }

  function Job1(cfg: Config, n: Id, f: Name, u: string, when: int): Job {
    NewJob(cfg, n, f, u, "", High, when).(queued := true)
  }

  /** `s` is where one background job was submitted to an idle server. */
  lemma First(cfg: Config, s: State, f: Name, u: string, when: int) returns (t: State)
    requires Idle1(s) && cfg.workerWakeup == 0 && cfg.buckets == 1 && |u| <= MAX_UNIQUE_SIZE
    ensures Enabled(cfg, s, Background1(f, u, when)) && t == Step(cfg, s, Background1(f, u, when))
    ensures t.cons == s.cons && t.workers == map[] && List(t.fnWorkers, f) == []
              && t.jobs == map[0 := Job1(cfg, 0, f, u, when)]
    ensures t.uniqueIx == map[0 := [0]] && t.handleIx == map[0 := [0]] && t.nextJob == 1 && t.fns.Keys == {f}
              && t.fns[f].maxQueue == map[]
    ensures t.fifo == map[(f, High) := [0]] && t.conWorkers == map[] && t.clock == 0 && t.nextWorker == 0
              && (when == 0 ==> t.fns[f].timer == None)
  {
    hide Step, Enabled, Handle, UniqueKey, CString, Truncate;
    assert Quiet(s, f);
    NoEqual1(cfg, s, f, u);
    var s1, s2 := SubmitIs(cfg, s, 0, f, u, "", High, when, Background(true));
    t := Step(cfg, s, Background1(f, u, when));
    var job := Job1(cfg, 0, f, u, when);
    assert Bucket(cfg, job.spec.handleKey) == 0 && Bucket(cfg, job.spec.uniqueKey) == 0;
    assert List(s.fifo, (f, High)) + [0] == [0] && [0] + List(s.handleIx, 0) == [0] && [0] + List(s.uniqueIx, 0) == [0];
  }

  lemma NoEqual1(cfg: Config, s: State, f: Name, u: string)
    requires s.uniqueIx == map[]
    ensures FindEqual(cfg, s, f, u, "").None?
  {}

  /** A second one, which is not found to be the first. */
  lemma Second(cfg: Config, s: State, f: Name, u: string) returns (t: State)
    requires Served(s, 0) && cfg.workerWakeup == 0 && |u| <= MAX_UNIQUE_SIZE && List(s.fnWorkers, f) == [] && f in s.fns
    requires s.fns[f].maxQueue == map[] && s.nextJob == 1 && s.jobs == map[0 := Job1(cfg, 0, f, u, 0)]
    requires FindEqual(cfg, s, f, u, "").None?
    ensures Enabled(cfg, s, Background1(f, u, 0)) && t == Step(cfg, s, Background1(f, u, 0))
    ensures t.jobs == map[0 := Job1(cfg, 0, f, u, 0), 1 := Job1(cfg, 1, f, u, 0)]
  {
    hide Step, Enabled, NewJob, FindEqual;
    assert Quiet(s, f);
    var s1, s2 := SubmitIs(cfg, s, 0, f, u, "", High, 0, Background(true));
    t := Step(cfg, s, Background1(f, u, 0));
    assert s.jobs[1 := Job1(cfg, 1, f, u, 0)] == map[0 := Job1(cfg, 0, f, u, 0), 1 := Job1(cfg, 1, f, u, 0)];
  }

  lemma {:induction false} CStringAll(u: string)
    requires '\0' !in u
    ensures CString(u) == u
  {
    if u != "" {
      assert u[0] in u && u == [u[0]] + u[1..];
      CStringAll(u[1..]);
    }
  }

  function Repeated(c: char, n: nat): string { seq(n, _ => c) }

  lemma NotFound(s: State, u: string)
    requires Inv(CFG, s, BARE) && |u| == 64 && '\0' !in u && s.jobs == map[0 := Job1(CFG, 0, "f", u, 0)]
    ensures FindEqual(CFG, s, "f", u, "").None?
  {
    hide Inv, FindEqual, Handle, UniqueKey, CString, KeysOk;
    CStringAll(u);
    Indexed(CFG, s, BARE);
    FoundAgain(CFG, s, 0, "f", u, "", High, 0);
  }

  /** The same unique of 64 bytes, submitted twice, makes two jobs. */
  lemma LongUnique() returns (t: State)
    ensures var e := Background1("f", Repeated('u', 64), 0); RunsTo(CFG, [Connect(0), e, e], t)
    ensures t.jobs.Keys == {0, 1} && t.jobs[0].spec.unique == t.jobs[1].spec.unique
              && t.jobs[0].spec.fn == t.jobs[1].spec.fn
  {
    hide Leads, Step, Enabled, RunsTo, FindEqual, Handle, UniqueKey, CString, Inv;
    var u := Repeated('u', 64);
    var e := Background1("f", u, 0);
    var s := Alone(CFG);
    var s1 := First(CFG, s, "f", u, 0);
    Then(CFG, [Connect(0)], s, e);
    LeadsInv(CFG, [Connect(0)] + [e], s1);
    NotFound(s1, u);
    t := Second(CFG, s1, "f", u);
    Ends(CFG, [Connect(0)] + [e], s1, e);
    assert [Connect(0)] + [e] + [e] == [Connect(0), e, e];
  }

  /** With a prefix of 63 bytes, the first two jobs have the same handle. */
  lemma LongPrefix() returns (t: State)
    ensures var e := Background1("f", "", 0); RunsTo(Simple(false, Repeated('p', 63)), [Connect(0), e, e], t)
    ensures t.jobs.Keys == {0, 1} && t.jobs[0].spec.handle == t.jobs[1].spec.handle
  {
    hide Leads, Step, Enabled, RunsTo, Handle, UniqueKey, CString;
    var cfg, e := Simple(false, Repeated('p', 63)), Background1("f", "", 0);
    var s := Alone(cfg);
    var s1 := First(cfg, s, "f", "", 0);
    Then(cfg, [Connect(0)], s, e);
    t := Second(cfg, s1, "f", "");
    SameHandle(cfg.prefix);
    Ends(cfg, [Connect(0)] + [e], s1, e);
    assert [Connect(0)] + [e] + [e] == [Connect(0), e, e];
  }

  lemma SameHandle(prefix: string)
    requires |prefix| == 63
    ensures Handle(prefix, 1) == Handle(prefix, 2)
  {
    hide Decimal;
    forall n: nat ensures Truncate(prefix + ":" + Decimal(n), 63) == prefix {
      assert (prefix + ":" + Decimal(n))[..63] == prefix;
    }
  }

  // A sleeping connection

  /** A connection goes to sleep and then registers a function for which a job waits: nobody wakes it. */
  lemma SleepThenCanDo() returns (t: State)
    ensures RunsTo(CFG, [Connect(0), Background1("f", "", 0), PreSleep(0), CanDo(0, "f", 0)], t)
    ensures Dozing(t.workers, t.cons, "f") && List(t.fifo, ("f", High)) == [0] && 0 in t.jobs && Due(t.jobs[0], t.clock)
    ensures "f" in t.fns && !Armed(t.fns["f"], t.jobs[0].spec.when)
  {
    hide Leads, Step, Enabled, RunsTo, Handle, UniqueKey, CString;
    var e := Background1("f", "", 0);
    var s := Alone(CFG);
    var s1 := First(CFG, s, "f", "", 0);
    Then(CFG, [Connect(0)], s, e);
    var s2 := Sleeps1(s1);
    Then(CFG, [Connect(0)] + [e], s1, PreSleep(0));
    CanDoIs(CFG, s2, 0, "f", 0);
    Ends(CFG, [Connect(0)] + [e] + [PreSleep(0)], s2, CanDo(0, "f", 0));
    t := Step(CFG, s2, CanDo(0, "f", 0));
    assert [Connect(0)] + [e] + [PreSleep(0)] + [CanDo(0, "f", 0)] == [Connect(0), e, PreSleep(0), CanDo(0, "f", 0)];
    assert 0 in t.workers && t.workers[0].fn == "f" && Dozes(t.cons, 0);
  }

  lemma Sleeps1(s: State) returns (t: State)
    requires s.cons == map[0 := IDLE] && s.conWorkers == map[]
    ensures Enabled(CFG, s, PreSleep(0)) && t == Step(CFG, s, PreSleep(0))
              && t == s.(cons := map[0 := IDLE.(sleeping := true)])
  {
    hide PeekHangs, TakeHangs;
    PeekEnds(CFG, s, 0);
    assert Look(s, List(s.conWorkers, 0)).None?;
    assert Peek(CFG, s, 0) == (s, None);
    t := s.(cons := map[0 := IDLE.(sleeping := true)]);
    assert s.cons[0 := IDLE.(sleeping := true, timer := None)] == map[0 := IDLE.(sleeping := true)];
  }

  // A connection that was woken before

  const NAP := IDLE.(sleeping := true, noopSent := true)

  /** Queuing a job for one worker, whose connection sleeps, is telling it and queuing the job. */
  lemma TellsFirst(s: State, f: Name, when: int)
    requires List(s.fnWorkers, f) == [0] && 0 in s.workers && s.workers[0].con == 0 && Served(s, 0)
    requires s.cons[0] == IDLE.(sleeping := true)
    requires FindEqual(CFG, s, f, "", "").None? && !Limited(FnOr(s.fns, f), High)
    ensures var e, t := Background1(f, "", when), s.(cons := s.cons[0 := NAP], out := s.out + [Noop(0)]);
            Enabled(CFG, s, e) && Enabled(CFG, t, e) && Step(CFG, s, e) == Step(CFG, t, e)
  {
    hide FindEqual, Limited, JobAdd, NewJob, TakeHangs, PeekHangs, Truncate, CString, Enqueue, Record, Create, EnsureFn,
         List;
    var t := s.(cons := s.cons[0 := NAP], out := s.out + [Noop(0)]);
    SameFind(s, t, f);
    JobAddGoes(CFG, s, f, "", "", High, when, Background(true));
    JobAddGoes(CFG, t, f, "", "", High, when, Background(true));
    JobFor(s.nextJob, f, when);
    AddTells(s, t, f, NewJob(CFG, s.nextJob, f, "", "", High, when));
  }

  lemma JobFor(n: Id, f: Name, when: int)
    ensures NewJob(CFG, n, f, "", "", High, when).spec.fn == f
  {
    hide Handle, UniqueKey, Truncate, CString;
  }

  lemma SameFind(s: State, t: State, f: Name)
    requires t == s.(cons := t.cons, out := t.out)
    ensures FindEqual(CFG, t, f, "", "") == FindEqual(CFG, s, f, "", "")
  {}

  lemma AddTells(s: State, t: State, f: Name, job: Job)
    requires List(s.fnWorkers, f) == [0] && 0 in s.workers && s.workers[0].con == 0 && 0 in s.cons
    requires s.cons[0] == IDLE.(sleeping := true) && t == s.(cons := s.cons[0 := NAP], out := s.out + [Noop(0)])
    requires job.spec.fn == f
    ensures var j, o := s.nextJob, Background(true);
            Enqueue(CFG, Record(Create(CFG, EnsureFn(s, f), job), j, o), j) ==
              Enqueue(CFG, Record(Create(CFG, EnsureFn(t, f), job), j, o), j)
  {
    hide Append, Record, Create, EnsureFn, Wake;
    Made(s, t, f, job);
    var j, o := s.nextJob, Background(true);
    var a, b := Record(Create(CFG, EnsureFn(s, f), job), j, o), Record(Create(CFG, EnsureFn(t, f), job), j, o);
    WakesOne(a, b, f);
  }

  lemma Made(s: State, t: State, f: Name, job: Job)
    requires job.spec.fn == f && t == s.(cons := t.cons, out := t.out)
    ensures var j, o := s.nextJob, Background(true);
            var a, b := Record(Create(CFG, EnsureFn(s, f), job), j, o), Record(Create(CFG, EnsureFn(t, f), job), j, o);
            && b == a.(cons := t.cons, out := t.out) && a.cons == s.cons && a.out == s.out
            && j in a.jobs && a.jobs[j].spec.fn == f && a.fnWorkers == s.fnWorkers && a.workers == s.workers
  {
    hide Record, Create, EnsureFn;
    var s0, t0 := EnsureFn(s, f), EnsureFn(t, f);
    assert t0 == s0.(cons := t.cons, out := t.out) by { EnsuredFns(s, f); EnsuredFns(t, f); }
    CreateSame(s0, t0, job);
    var s1, t1 := Create(CFG, s0, job), Create(CFG, t0, job);
    RecordSame(s1, t1, s.nextJob);
  }

  lemma CreateSame(s: State, t: State, job: Job)
    requires t == s.(cons := t.cons, out := t.out) && job.spec.fn in s.fns
    ensures var a, b := Create(CFG, s, job), Create(CFG, t, job);
            && b == a.(cons := t.cons, out := t.out) && a == s.(jobs := s.jobs[s.nextJob := job], fns := a.fns,
                   uniqueIx := a.uniqueIx, handleIx := a.handleIx, nextJob := a.nextJob)
  {
    hide Bucket, List;
  }

  lemma RecordSame(s: State, t: State, j: Id)
    requires t == s.(cons := t.cons, out := t.out) && j in s.jobs
    ensures var a, b := Record(s, j, Background(true)), Record(t, j, Background(true));
            && b == a.(cons := t.cons, out := t.out) && a == s.(jobs := a.jobs, store := a.store)
            && j in a.jobs && a.jobs[j].spec == s.jobs[j].spec
  {
    hide KeyOf;
    var job := s.jobs[j].(queued := true);
    var store := s.store + {KeyOf(job)};
    assert Record(s, j, Background(true)) == s.(jobs := s.jobs[j := job], store := store);
    assert Record(t, j, Background(true)) == t.(jobs := s.jobs[j := job], store := store);
  }

  lemma WakesOne(a: State, b: State, f: Name)
    requires List(a.fnWorkers, f) == [0] && 0 in a.workers && a.workers[0].con == 0 && 0 in a.cons
    requires a.cons[0] == IDLE.(sleeping := true) && b == a.(cons := a.cons[0 := NAP], out := a.out + [Noop(0)])
    ensures Wake(a, f, 0) == Wake(b, f, 0)
  {
    hide Life, Accepts;
    assert [0][1..] == [];
    assert WakeOne(a, 0) == b && WakeOne(b, 0) == b;
    assert WakeLoop(a, [0], 0, 0) == (b, 1) && WakeLoop(b, [0], 0, 0) == (b, 1);
  }

  /** Connection 0, with a worker for "f", was sent a NOOP for job 0, which is not due, and sleeps again. */
  ghost predicate Napping(s: State) {
    && OneWorker(s, 0) && s.cons == map[0 := NAP] && s.jobs == map[0 := Job1(CFG, 0, "f", "", 9)] && s.nextJob == 1
    && s.fifo == map[("f", High) := [0]] && s.runs == map[] && s.clock == 0
  }

  lemma ToldLater(s: State) returns (t: State)
    requires Registered1(s.(cons := map[0 := IDLE]), 0) && s.cons == map[0 := IDLE.(sleeping := true)]
    ensures Enabled(CFG, s, Background1("f", "", 9)) && t == Step(CFG, s, Background1("f", "", 9)) && Napping(t)
  {
    hide Step, Enabled, Handle, UniqueKey, Truncate, CString;
    NoEqual1(CFG, s, "f", "");
    TellsFirst(s, "f", 9);
    var s' := s.(cons := s.cons[0 := NAP], out := s.out + [Noop(0)]);
    assert Quiet(s', "f");
    NoEqual1(CFG, s', "f", "");
    var s1, s2 := SubmitIs(CFG, s', 0, "f", "", "", High, 9, Background(true));
    t := Step(CFG, s, Background1("f", "", 9));
    assert HomeOf(Job1(CFG, 0, "f", "", 9)) == ("f", High);
    assert List(s.fifo, ("f", High)) + [0] == [0];
  }

  lemma LookPast(s: State, w: Id, ps: seq<Priority>)
    requires w in s.workers && ps != []
    requires var q := List(s.fifo, (s.workers[w].fn, ps[0])); FirstDue(s.jobs, q, s.clock) == |q|
    ensures LookAt(s, w, ps) == LookAt(s, w, ps[1..])
  {}

  lemma Dormant(s: State)
    requires Napping(s)
    ensures Enabled(CFG, s, PreSleep(0)) && Step(CFG, s, PreSleep(0)) == s
  {
    hide PeekHangs, TakeHangs, Handle, UniqueKey, Truncate, CString;
    PeekEnds(CFG, s, 0);
    assert FirstDue(s.jobs, [0], 0) == 1;
    assert List(s.fifo, ("f", Normal)) == [] && List(s.fifo, ("f", Low)) == [];
    LookPast(s, 0, PRIORITIES);
    LookPast(s, 0, PRIORITIES[1..]);
    LookPast(s, 0, PRIORITIES[1..][1..]);
    assert Look(s, [0]).None?;
    assert Peek(CFG, s, 0) == (s, None);
    assert s.cons[0 := NAP] == s.cons;
  }

  /** A connection is sent a NOOP for a job that is not due, goes back to sleep without asking for a job, and is not
      told of the next one. */
  lemma Oversleeps() returns (s: State, t: State)
    ensures RunsTo(CFG, [Connect(0), CanDo(0, "f", 0), PreSleep(0), Background1("f", "", 9), PreSleep(0)], s)
    ensures Enabled(CFG, s, Background1("f", "", 0)) && t == Step(CFG, s, Background1("f", "", 0))
    ensures Eligible(t, 0, 1) && 0 in t.cons && t.cons[0].sleeping && Naps.Noops(t.out, 0) == Naps.Noops(s.out, 0)
  {
    hide Leads, RunsTo, Step, Enabled, Naps.Noops, Handle, UniqueKey, Truncate, CString;
    var es := Worker1(0);
    var s0 := Scene1(0);
    var s1 := Rests1(s0);
    Then(CFG, es, s0, PreSleep(0));
    s := ToldLater(s1);
    Then(CFG, es + [PreSleep(0)], s1, Background1("f", "", 9));
    Dormant(s);
    Ends(CFG, es + [PreSleep(0)] + [Background1("f", "", 9)], s, PreSleep(0));
    assert es + [PreSleep(0)] + [Background1("f", "", 9)] + [PreSleep(0)] ==
             [Connect(0), CanDo(0, "f", 0), PreSleep(0), Background1("f", "", 9), PreSleep(0)];
    t := Unheard(s);
  }

  lemma Rests1(s: State) returns (t: State)
    requires Registered1(s, 0)
    ensures Enabled(CFG, s, PreSleep(0)) && t == Step(CFG, s, PreSleep(0))
              && t == s.(cons := map[0 := IDLE.(sleeping := true)])
  {
    hide PeekHangs, TakeHangs;
    PeekEnds(CFG, s, 0);
    assert Look(s, [0]).None?;
    assert Peek(CFG, s, 0) == (s, None);
    t := s.(cons := map[0 := IDLE.(sleeping := true)]);
    assert s.cons[0 := IDLE.(sleeping := true, timer := None)] == map[0 := IDLE.(sleeping := true)];
  }

  lemma Unheard(s: State) returns (t: State)
    requires Napping(s)
    ensures Enabled(CFG, s, Background1("f", "", 0)) && t == Step(CFG, s, Background1("f", "", 0))
    ensures Eligible(t, 0, 1) && 0 in t.cons && t.cons[0].sleeping && Naps.Noops(t.out, 0) == Naps.Noops(s.out, 0)
  {
    hide Step, Enabled, Naps.Noops, Handle, UniqueKey, Truncate, CString;
    assert Quiet(s, "f");
    NoUnique(s);
    var s1, s2 := SubmitIs(CFG, s, 0, "f", "", "", High, 0, Background(true));
    t := Step(CFG, s, Background1("f", "", 0));
    Naps.StepDeaf(CFG, s, Background1("f", "", 0), 0);
    assert t.workers[0].fn == "f";
  }

  lemma NoUnique(s: State)
    ensures FindEqual(CFG, s, "f", "", "").None?
  {}

  // Round robin

  const TURNS := Simple(true, "")

  /** The workers of connection 0: first the one for "g", then the one for "f". */
  ghost predicate TwoWorkers(s: State) {
    && s.workers == map[0 := Worker(0, "f", 0), 1 := Worker(0, "g", 0)] && List(s.conWorkers, 0) == [1, 0]
    && List(s.fnWorkers, "f") == [0] && List(s.fnWorkers, "g") == [1] && s.clock == 0
    && s.fns.Keys == {"f", "g"} && s.fns["f"].maxQueue == map[] && s.fns["g"].maxQueue == map[]
  }

  ghost predicate Two(s: State) { TwoWorkers(s) && s.cons == map[0 := IDLE] }

  lemma Pair(cfg: Config) returns (s: State)
    requires cfg.jobRetries <= 255 && !cfg.exceptions
    ensures Leads(cfg, [Connect(0), CanDo(0, "f", 0), CanDo(0, "g", 0)], s) && Two(s)
    ensures s.jobs == map[] && s.fifo == map[] && s.nextJob == 0 && s.fns["f"].jobCount == 0 && s.fns["g"].jobCount == 0
    ensures s.clients == map[] && s.conClients == map[] && s.jobClients == map[] && s.nextClient == 0 && s.out == []
    ensures (forall c :: c != 0 ==> List(s.conWorkers, c) == []) && s.runs == map[] && s.handleIx == map[]
  {
    hide Leads, Step, Enabled;
    var s0 := Alone(cfg);
    CanDoIs(cfg, s0, 0, "f", 0);
    Then(cfg, [Connect(0)], s0, CanDo(0, "f", 0));
    var s1 := Step(cfg, s0, CanDo(0, "f", 0));
    CanDoIs(cfg, s1, 0, "g", 0);
    Then(cfg, [Connect(0)] + [CanDo(0, "f", 0)], s1, CanDo(0, "g", 0));
    s := Step(cfg, s1, CanDo(0, "g", 0));
    assert [Connect(0)] + [CanDo(0, "f", 0)] + [CanDo(0, "g", 0)] == [Connect(0), CanDo(0, "f", 0), CanDo(0, "g", 0)];
    assert List(s1.conWorkers, 0) == [0] && List(s.conWorkers, 0) == [1, 0];
  }

  function Kept(f: Name, p: Priority, when: int): Event { Submit(0, f, "", "", p, when, Background(true)) }

  function KeptJob(n: Id, f: Name, p: Priority, when: int): Job {
    NewJob(TURNS, n, f, "", "", p, when).(queued := true)
  }

  lemma KeptSpec(n: Id, f: Name, p: Priority, when: int)
    ensures var job := KeptJob(n, f, p, when); HomeOf(job) == (f, p) && job.spec.when == when && !job.ignore
    ensures KeptJob(n, f, p, when).spec.fn == f && KeptJob(n, f, p, when).spec.handleKey == 0
  {
    hide Handle, UniqueKey, Truncate, CString;
  }

  lemma Awake2(s: State, f: Name)
    requires Two(s)
    ensures Quiet(s, f)
  {
    forall w | w in List(s.fnWorkers, f) ensures !Wakeable(s, w) {}
  }

  /** A background job is submitted for one of the two functions. */
  lemma Keeps2(s: State, f: Name, p: Priority, when: int) returns (t: State)
    requires Two(s) && f in {"f", "g"}
    ensures Enabled(TURNS, s, Kept(f, p, when)) && t == Step(TURNS, s, Kept(f, p, when)) && Two(t)
    ensures t.jobs == s.jobs[s.nextJob := KeptJob(s.nextJob, f, p, when)] && t.runs == s.runs
    ensures t.nextJob == s.nextJob + 1
    ensures List(t.handleIx, 0) == [s.nextJob] + List(s.handleIx, 0)
  {
    hide Step, Enabled, NewJob, Quiet, Enters;
    Awake2(s, f);
    var s1, s2 := SubmitIs(TURNS, s, 0, f, "", "", p, when, Background(true));
    t := Step(TURNS, s, Kept(f, p, when));
    Keeping(s, s1, t, KeptJob(s.nextJob, f, p, when), f, p, when);
  }

  lemma Keeping(s: State, s1: State, t: State, job: Job, f: Name, p: Priority, when: int)
    requires Two(s) && f in {"f", "g"} && job == KeptJob(s.nextJob, f, p, when)
    requires Enters(TURNS, s, s1, job) && t == s1.(out := t.out)
    ensures Two(t) && t.jobs == s.jobs[s.nextJob := job] && t.runs == s.runs && t.nextJob == s.nextJob + 1
    ensures List(t.handleIx, 0) == [s.nextJob] + List(s.handleIx, 0)
  {
    hide NewJob;
    KeptSpec(s.nextJob, f, p, when);
    assert Bucket(TURNS, 0) == 0;
    assert t.fns.Keys == {"f", "g"};
  }

  /** Job 0, which is all there is, is canceled. */
  lemma Cancels2(s: State, p: Priority) returns (t: State, h: string)
    requires Two(s) && s.jobs == map[0 := KeptJob(0, "f", p, 0)] && List(s.handleIx, 0) == [0]
    ensures h == KeptJob(0, "f", p, 0).spec.handle
    ensures Enabled(TURNS, s, Cancel(h, true)) && t == Step(TURNS, s, Cancel(h, true))
    ensures Two(t) && t.jobs == map[0 := KeptJob(0, "f", p, 0).(ignore := true, queued := false)] && t.runs == s.runs
    ensures t.nextJob == s.nextJob
  {
    hide NewJob, JobGet, CancelJob;
    h := KeptJob(0, "f", p, 0).spec.handle;
    t := CancelJob(TURNS, s, h, true);
    KeptSpec(0, "f", p, 0);
    Found0(s, KeptJob(0, "f", p, 0));
    CancelFrame(TURNS, s, h, true, 0);
  }

  lemma Found0(s: State, job: Job)
    requires s.jobs == map[0 := job] && List(s.handleIx, 0) == [0] && job.spec.handleKey == 0
    ensures JobGet(TURNS, s, job.spec.handle, None) == Some(0)
  {
    assert TURNS.hash(job.spec.handle) == 0 && Bucket(TURNS, 0) == 0;
    assert List(s.handleIx, 0)[0] == 0;
  }

  /** Job 0 is due and ignored, jobs 1 and 2 are not due. */
  ghost predicate Waiting3(s: State, p: Priority) {
    && Two(s) && s.runs == map[] && s.jobs.Keys == {0, 1, 2}
    && s.jobs[0] == KeptJob(0, "f", p, 0).(ignore := true, queued := false)
    && s.jobs[1] == KeptJob(1, "f", High, 9) && s.jobs[2] == KeptJob(2, "g", High, 9)
  }

  /** In round-robin mode, with a canceled job of any priority that is due and jobs for two functions of the
      connection that are not: GRAB_JOB does not end, although a worker may have a due job. Nor does
      PRE_SLEEP, if the canceled job is of lower priority than the others. */
  lemma TurnsForever(p: Priority) returns (t: State)
    ensures RunsTo(TURNS, [Connect(0), CanDo(0, "f", 0), CanDo(0, "g", 0), Kept("f", p, 0),
              Cancel(KeptJob(0, "f", p, 0).spec.handle, true), Kept("f", High, 9), Kept("g", High, 9)], t)
    ensures Served(t, 0) && Eligible(t, 0, 0) && t.jobs[0].spec.priority == p
    ensures TakeHangs(TURNS, Awake(t, 0), 0) && (p != High ==> PeekHangs(TURNS, t, 0))
  {
    hide Leads, RunsTo, TakeHangs, PeekHangs, NewJob, Inv, Eligible, Waiting3;
    var s, h := Canceled1(p);
    t := Delays2(s, p, Canceled1Run(p, h));
    var all := Canceled1Run(p, h) + [Kept("f", High, 9)] + [Kept("g", High, 9)];
    LeadsTo(TURNS, all, t);
    LeadsInv(TURNS, all, t);
    assert all == [Connect(0), CanDo(0, "f", 0), CanDo(0, "g", 0), Kept("f", p, 0), Cancel(h, true), Kept("f", High, 9),
                   Kept("g", High, 9)];
    Hangs3(t, p);
  }

  function Canceled1Run(p: Priority, h: string): seq<Event> {
    [Connect(0), CanDo(0, "f", 0), CanDo(0, "g", 0)] + [Kept("f", p, 0)] + [Cancel(h, true)]
  }

  lemma Canceled1(p: Priority) returns (s: State, h: string)
    ensures h == KeptJob(0, "f", p, 0).spec.handle && Leads(TURNS, Canceled1Run(p, h), s)
    ensures Two(s) && s.runs == map[] && s.nextJob == 1
    ensures s.jobs == map[0 := KeptJob(0, "f", p, 0).(ignore := true, queued := false)]
  {
    hide Leads, Step, Enabled, NewJob;
    var es := [Connect(0), CanDo(0, "f", 0), CanDo(0, "g", 0)];
    var s0 := Pair(TURNS);
    var s1 := Keeps2(s0, "f", p, 0);
    Then(TURNS, es, s0, Kept("f", p, 0));
    s, h := Cancels2(s1, p);
    Then(TURNS, es + [Kept("f", p, 0)], s1, Cancel(h, true));
  }

  lemma Delays2(s: State, p: Priority, es: seq<Event>) returns (t: State)
    requires Leads(TURNS, es, s) && Two(s) && s.runs == map[] && s.nextJob == 1
    requires s.jobs == map[0 := KeptJob(0, "f", p, 0).(ignore := true, queued := false)]
    ensures Leads(TURNS, es + [Kept("f", High, 9)] + [Kept("g", High, 9)], t) && Waiting3(t, p)
  {
    hide Leads, Step, Enabled, NewJob;
    var s1 := Keeps2(s, "f", High, 9);
    Then(TURNS, es, s, Kept("f", High, 9));
    t := Keeps2(s1, "g", High, 9);
    Then(TURNS, es + [Kept("f", High, 9)], s1, Kept("g", High, 9));
  }

  lemma LeadsTo(cfg: Config, es: seq<Event>, s: State)
    requires Leads(cfg, es, s)
    ensures RunsTo(cfg, es, s)
  {
    hide Inv, RunsTo;
  }

  lemma Hangs3(s: State, p: Priority)
    requires Waiting3(s, p) && Inv(TURNS, s, BARE)
    ensures Served(s, 0) && Eligible(s, 0, 0) && s.jobs[0].spec.priority == p
    ensures TakeHangs(TURNS, Awake(s, 0), 0) && (p != High ==> PeekHangs(TURNS, s, 0))
  {
    hide TakeHangs, PeekHangs, NewJob, Inv;
    Stalled3(s, p);
    assert Blocked(s, 0, High);
    GrabEnabled(TURNS, s, BARE, 0);
    if p != High {
      assert TrappedAt(s, 0, High, 0);
      SleepHangs(TURNS, s, BARE, 0);
    }
  }

  lemma Stalled3(s: State, p: Priority)
    requires Waiting3(s, p)
    ensures Eligible(s, 0, 0) && s.jobs[0].ignore && s.jobs[0].spec.priority == p && (forall a :: !Wanted(s, 0, a))
    ensures Clogged(s, 0, High)
  {
    hide NewJob;
    KeptSpec(0, "f", p, 0);
    KeptSpec(1, "f", High, 9);
    KeptSpec(2, "g", High, 9);
    assert s.workers[0].fn == "f" && s.workers[1].fn == "g";
    assert Stalls(s, 0, 0, High) && Stalls(s, 0, 1, High);
  }
}
