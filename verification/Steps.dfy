/** Every step of the server keeps the invariant. */
module Steps {
  import opened Seqs
  import opened Ownership
  import opened Scheduler
  import opened Tables
  import opened Uniques
  import opened Retries
  import opened Traces
  import opened Timers
  import opened Wakeups
  import opened Invariant
  import opened Records
  import opened Notices
  import opened JobOps
  import opened Selection
  import opened Choices
  import opened Commands

  /** Nothing but the unconditional part of the invariant. */
  ghost const BARE := Phase({}, {}, {}, false, false, false)

  /** Between steps. */
  ghost predicate Steady(x: Phase) { x.floating == {} && x.spent == {} && x.quiet == {} }

  /** The timeout of connection `c` is not about a job that one of the workers `ws` runs. */
  ghost predicate Apart(s: State, c: Id, ws: seq<Id>) {
    c in s.cons && !s.cons[c].dead && s.cons[c].timer.Some? && s.cons[c].timer.value in s.runs ==>
      s.runs[s.cons[c].timer.value] !in ws
  }

  /** A timeout about job `j` does not come while the job waits in its FIFO. */
  ghost predicate Punctual(s: State, j: Id) { j in s.jobs ==> j in s.runs }

  /** A result that is not lost: the job it is about is not in the persistent queue, or can be taken out
      of it. */
  ghost predicate Settles(cfg: Config, s: State, c: Id, handle: string, storeOk: bool) {
    var j := JobGet(cfg, s, handle, Some(c));
    j.Some? && j.value in s.jobs && s.jobs[j.value].queued ==> storeOk
  }

  /** What the conditional guarantees ask of a step. */
  ghost predicate Allowed(cfg: Config, s: State, x: Phase, e: Event) {
    match e
    case CanDo(c, _, _) => x.watched ==> !Dozes(s.cons, c)
    case CantDo(c, f) => x.timed ==> Apart(s, c, Registered(s, c, f))
    case ResetAbilities(c) => x.timed ==> Apart(s, c, List(s.conWorkers, c))
    case Result(c, h, _, storeOk) => x.traced ==> Settles(cfg, s, c, h, storeOk)
    case Cancel(h, _) => x.traced ==> var j := JobGet(cfg, s, h, None); j.Some? ==> List(s.jobClients, j.value) == []
    case JobTimeout(c) =>
      c in s.cons && s.cons[c].timer.Some? ==> if x.timed then !s.cons[c].dead else Punctual(s, s.cons[c].timer.value)
    case _ => true
  }

  // Workers

  lemma RegisteredSpec(s: State, c: Id, f: Name)
    requires NoDup(List(s.conWorkers, c))
    ensures NoDup(Registered(s, c, f))
    ensures forall w :: w in Registered(s, c, f) <==>
              w in List(s.conWorkers, c) && w in s.workers && s.workers[w].fn == f
  {
    FilterKeeps(w => w in s.workers && s.workers[w].fn == f, List(s.conWorkers, c));
  }

  lemma ApartTimers(s: State, c: Id, ws: seq<Id>)
    requires TimersOk(s.cons, s.runs, s.workers, {}) && Apart(s, c, ws)
    requires forall w :: w in ws ==> w in s.workers && s.workers[w].con == c
    ensures TimersOk(s.cons, s.runs, s.workers, set j | j in s.runs && s.runs[j] in ws)
  {}

  lemma ApartInv(cfg: Config, s: State, x: Phase, c: Id, ws: seq<Id>)
    requires Inv(cfg, s, x) && Steady(x) && (x.timed ==> Apart(s, c, ws))
    requires forall w :: w in ws ==> w in s.workers && s.workers[w].con == c
    ensures Inv(cfg, s, x.(quiet := set j | j in s.runs && s.runs[j] in ws))
  {
    hide ListsOk, RefsOk, CountsOk, KeysOk, Durable, RetriesOk, TraceOk, TimersOk, WatchOk, Apart;
    if x.timed { ApartTimers(s, c, ws); }
  }

  /** Some workers of a connection are freed. */
  lemma ReleaseInv(cfg: Config, s: State, x: Phase, c: Id, ws: seq<Id>)
    requires Inv(cfg, s, x) && Steady(x) && (x.timed ==> Apart(s, c, ws))
    requires NoDup(ws) && forall w :: w in ws ==> w in s.workers && s.workers[w].con == c
    ensures var t := FreeWorkers(cfg, s, ws);
            && Inv(cfg, t, x) && Life(t.cons) == Life(s.cons) && Accepts(t.out) == Accepts(s.out)
            && t.workers == s.workers - (set w | w in ws)
  {
    hide Inv, Apart, FreeWorkers, Life, Accepts, NoDup;
    var y := x.(quiet := set j | j in s.runs && s.runs[j] in ws);
    ApartInv(cfg, s, x, c, ws);
    FreeWorkersInv(cfg, s, y, ws);
    WeakenInv(cfg, FreeWorkers(cfg, s, ws), y, x);
  }

  lemma ConWorkers(cfg: Config, s: State, x: Phase, c: Id)
    requires Inv(cfg, s, x)
    ensures NoDup(List(s.conWorkers, c))
    ensures forall w :: w in List(s.conWorkers, c) <==> w in s.workers && s.workers[w].con == c
  {
    hide ListsOk, RefsOk, CountsOk, KeysOk, Durable, RetriesOk, TraceOk, TimersOk, WatchOk;
    ConList(cfg, s, x.floating, c);
  }

  lemma CantDoInv(cfg: Config, s: State, x: Phase, c: Id, f: Name)
    requires Inv(cfg, s, x) && Steady(x) && (x.timed ==> Apart(s, c, Registered(s, c, f)))
    ensures var t := FreeWorkers(cfg, s, Registered(s, c, f)); Inv(cfg, t, x) && Accepts(t.out) == Accepts(s.out)
  {
    hide Inv, Apart, FreeWorkers, Life, Accepts, NoDup, Registered;
    ConWorkers(cfg, s, x, c);
    RegisteredSpec(s, c, f);
    ReleaseInv(cfg, s, x, c, Registered(s, c, f));
  }

  lemma ResetInv(cfg: Config, s: State, x: Phase, c: Id)
    requires Inv(cfg, s, x) && Steady(x) && (x.timed ==> Apart(s, c, List(s.conWorkers, c)))
    ensures var t := FreeWorkers(cfg, s, List(s.conWorkers, c));
            && Inv(cfg, t, x) && Life(t.cons) == Life(s.cons) && Accepts(t.out) == Accepts(s.out)
            && forall w :: w in t.workers ==> t.workers[w].con != c
  {
    hide Inv, Apart, FreeWorkers, Life, Accepts, NoDup;
    ConWorkers(cfg, s, x, c);
    ReleaseInv(cfg, s, x, c, List(s.conWorkers, c));
  }

  // A dead connection

  lemma ConClients(cfg: Config, s: State, x: Phase, c: Id)
    requires Inv(cfg, s, x)
    ensures NoDup(List(s.conClients, c))
    ensures forall cl :: cl in List(s.conClients, c) <==> cl in s.clients && s.clients[cl].con == c
    ensures forall cl :: cl in s.clients ==> s.clients[cl].job in s.jobs
  {
    hide CountsOk, KeysOk, Durable, RetriesOk, TraceOk, TimersOk, WatchOk, JobRefs, RunRefs, WorkerRefs, ConRefs;
    var cls := List(s.conClients, c);
    forall cl ensures cl in cls <==> cl in s.clients && s.clients[cl].con == c {
      if cl in s.clients { assert Owner(s.clients, ClientCon)[cl] == s.clients[cl].con; }
      if cl in cls { assert cl in Owner(s.clients, ClientCon); }
    }
  }

  lemma {:induction false} FreeConClients(cfg: Config, s: State, x: Phase, c: Id)
    requires Inv(cfg, s, x)
    ensures List(FreeClients(s, List(s.conClients, c)).conClients, c) == []
    decreases |List(s.conClients, c)|
  {
    var cls := List(s.conClients, c);
    hide Inv, FreeClient, NoDup;
    if cls != [] {
      HeadConClient(cfg, s, x, c);
      FreeClientInv(cfg, s, x, cls[0]);
      FreeConClients(cfg, FreeClient(s, cls[0]), x, c);
    }
  }

  lemma HeadConClient(cfg: Config, s: State, x: Phase, c: Id)
    requires Inv(cfg, s, x) && List(s.conClients, c) != []
    ensures var cls := List(s.conClients, c); List(FreeClient(s, cls[0]).conClients, c) == cls[1..]
  {
    hide Inv, NoDup;
    ConClients(cfg, s, x, c);
  }

  lemma RemovedRefs(s: State, c: Id, con: Con)
    requires RefsOk(s, {}) && con.dead && con.removed
    requires forall w :: w in s.workers ==> s.workers[w].con != c
    requires forall cl :: cl in s.clients ==> s.clients[cl].con != c
    ensures RefsOk(SetCon(s, c, con), {})
  {
    hide JobRefs, RunRefs;
    assert Live(s.cons[c := con]) == Live(s.cons) - {c};
    hide Live;
  }

  lemma RemovedInv(cfg: Config, s: State, x: Phase, c: Id)
    requires Inv(cfg, s, x) && Steady(x) && c in s.cons && s.cons[c].dead
    requires forall w :: w in s.workers ==> s.workers[w].con != c
    requires forall cl :: cl in s.clients ==> s.clients[cl].con != c
    ensures Inv(cfg, SetCon(s, c, s.cons[c].(removed := true)), x)
  {
    hide Owned, Owner, Waiting, HandleBuckets, UniqueBuckets, RefsOk, CountsOk, KeysOk, Durable, RetriesOk, TraceOk,
         TimersOk, WatchOk;
    var con := s.cons[c].(removed := true);
    RemovedRefs(s, c, con);
    if x.timed { CalmTimers(s, {}, c, con); }
    if x.watched { WatchLess(s, SetCon(s, c, con)); }
  }

  /** No worker, client or running job refers to the connection. */
  ghost predicate Unused(s: State, c: Id) {
    && (forall w :: w in s.workers ==> s.workers[w].con != c)
    && (forall cl :: cl in s.clients ==> s.clients[cl].con != c)
    && (forall j :: !RunsOn(s, j, c))
  }

  lemma CleanUpInv(cfg: Config, s: State, x: Phase, c: Id)
    requires Inv(cfg, s, x) && Steady(x) && c in s.cons && s.cons[c].dead
    ensures var t := CleanUp(cfg, s, c); Inv(cfg, t, x) && Unused(t, c) && c in t.cons && t.cons[c].removed
  {
    hide Inv, FreeWorkers, FreeClients, NoDup;
    ResetInv(cfg, s, x, c);
    var s1 := FreeWorkers(cfg, s, List(s.conWorkers, c));
    FreeClientsInv(cfg, s1, x, List(s1.conClients, c));
    FreeConClients(cfg, s1, x, c);
    var s2 := FreeClients(s1, List(s1.conClients, c));
    ConClients(cfg, s2, x, c);
    StillDead(s, s2, c);
    RemovedInv(cfg, s2, x, c);
  }

  lemma StillDead(s: State, t: State, c: Id)
    requires Life(t.cons) == Life(s.cons)
    ensures c in t.cons <==> c in s.cons
    ensures c in s.cons ==> t.cons[c].dead == s.cons[c].dead && t.cons[c].removed == s.cons[c].removed
  {
    assert c in Life(t.cons) <==> c in t.cons;
    assert c in Life(s.cons) <==> c in s.cons;
    if c in s.cons {
      assert Life(s.cons)[c] == (s.cons[c].dead, s.cons[c].removed);
      assert Life(t.cons)[c] == (t.cons[c].dead, t.cons[c].removed);
    }
  }

  lemma DestroyInv(cfg: Config, s: State, x: Phase, c: Id)
    requires Inv(cfg, s, x) && c in s.cons && s.cons[c].removed
    ensures Inv(cfg, s.(cons := s.cons - {c}), x)
  {
    hide Owned, Owner, Waiting, HandleBuckets, UniqueBuckets, JobRefs, RunRefs, WorkerRefs, ClientRefs, CountsOk,
         KeysOk, Durable, RetriesOk, TraceOk, TargetOk, WatchOk;
    assert Live(s.cons - {c}) == Live(s.cons);
    hide Live;
    if x.watched { WatchLess(s, s.(cons := s.cons - {c})); }
  }

  // Submitting

  lemma JobAddLife(cfg: Config, s: State, f: Name, u: string, data: string, p: Priority, when: int, origin: Origin)
    ensures var t := JobAdd(cfg, s, f, u, data, p, when, origin).0;
              Life(t.cons) == Life(s.cons) && Accepts(t.out) == Accepts(s.out)
  {
    hide EnsureFn, FindEqual, Limited, FreeJob, Enqueue, Life, Accepts, NewJob, Create, Record;
    var s0 := EnsureFn(s, f);
    if FindEqual(cfg, s0, f, u, data).None? && !Limited(s0.fns[f], p) {
      var job := NewJob(cfg, s0.nextJob, f, u, data, p, when);
      NewJobFn(cfg, s0.nextJob, f, u, data, p, when);
      Creates(cfg, s0, job);
      var s1 := Create(cfg, s0, job);
      FreeJobFrame(cfg, s1, s0.nextJob);
      EnqueueFrame(cfg, Record(s1, s0.nextJob, origin), s0.nextJob);
    }
  }

  lemma EnqueueJobs(cfg: Config, s: State, j: Id)
    ensures Enqueue(cfg, s, j).jobs == s.jobs
  {
    hide Wake;
  }

  /** The job of an accepted submission is live. */
  lemma JobAddJob(cfg: Config, s: State, f: Name, u: string, data: string, p: Priority, when: int, origin: Origin)
    ensures var (t, r) := JobAdd(cfg, s, f, u, data, p, when, origin); r.Added? || r.Exists? ==> r.job in t.jobs
  {
    hide EnsureFn, FindEqual, Limited, FreeJob, Enqueue, NewJob;
    var s0 := EnsureFn(s, f);
    Found(cfg, s0, f, u, data);
    if FindEqual(cfg, s0, f, u, data).None? && !Limited(s0.fns[f], p) {
      var job := NewJob(cfg, s0.nextJob, f, u, data, p, when);
      NewJobFn(cfg, s0.nextJob, f, u, data, p, when);
      Creates(cfg, s0, job);
      var s1 := Create(cfg, s0, job);
      hide Create;
      EnqueueJobs(cfg, Record(s1, s0.nextJob, origin), s0.nextJob);
    }
  }

  lemma NewJobFn(cfg: Config, n: Id, f: Name, u: string, data: string, p: Priority, when: int)
    ensures NewJob(cfg, n, f, u, data, p, when).spec.fn == f
  {}

  lemma SameLive(s: State, t: State, c: Id)
    requires Life(t.cons) == Life(s.cons)
    ensures c in Live(t.cons) <==> c in Live(s.cons)
  {
    StillDead(s, t, c);
    hide Life, Accepts;
  }

  lemma SubmitInv(cfg: Config, s: State, x: Phase, c: Id, f: Name, u: string, data: string, p: Priority, when: int,
      origin: Origin)
    requires Inv(cfg, s, x) && Steady(x) && c in Live(s.cons) && !origin.Replayed?
    ensures Inv(cfg, SubmitJob(cfg, s, c, f, u, data, p, when, origin), x)
  {
    hide Inv, JobAdd, AddClient, Live, Life, Accepts;
    var (s1, r) := JobAdd(cfg, s, f, u, data, p, when, origin);
    JobAddInv(cfg, s, x, f, u, data, p, when, origin);
    EmitInv(cfg, s, x, Error(c));
    EmitInv(cfg, s1, x, Error(c));
    if r.Added? || r.Exists? {
      JobAddLife(cfg, s, f, u, data, p, when, origin);
      JobAddJob(cfg, s, f, u, data, p, when, origin);
      SameLive(s, s1, c);
      AddClientInv(cfg, s1, x, c, r.job);
      EmitInv(cfg, AddClient(s1, c, r.job), x, Created(c, r.job));
      EmitInv(cfg, s1, x, Created(c, r.job));
    }
  }

  // Grabbing

  lemma AwakeInv(cfg: Config, s: State, x: Phase, c: Id)
    requires Inv(cfg, s, x) && c in Live(s.cons)
    ensures Inv(cfg, Awake(s, c), x)
  {
    hide Inv;
    CalmInv(cfg, s, x, c, s.cons[c].(sleeping := false, noopSent := false));
  }

  lemma AssignInv(cfg: Config, s: State, x: Phase, c: Id, j: Id)
    requires Inv(cfg, s, x) && x.spent == {} && j in s.runs && Unassigned(cfg, s, j)
    ensures Inv(cfg, Emit(s, Assign(c, j)), x)
  {
    hide ListsOk, RefsOk, CountsOk, KeysOk, Durable, RetriesOk, TraceOk, TimersOk, WatchOk, Handouts;
    JobFacts(s, x.floating, j);
    AssignRetries(cfg, s, c, j);
    if x.traced { PlainTrace(s.out, s.clients, s.jobs, s.nextClient, s.nextJob, x.spent, Assign(c, j)); }
    OutOnly(cfg, s, x, s.out + [Assign(c, j)]);
  }

  lemma ArmTimers(s: State, c: Id, j: Id, timer: Option<Id>)
    requires TimersOk(s.cons, s.runs, s.workers, {}) && RunsOn(s, j, c) && c in s.cons
               && (timer.Some? ==> timer.value == j)
    ensures TimersOk(s.cons[c := s.cons[c].(timer := timer)], s.runs, s.workers, {})
  {}

  lemma TimeoutInv(cfg: Config, s: State, x: Phase, c: Id, j: Id, timer: Option<Id>)
    requires Inv(cfg, s, x) && Steady(x) && RunsOn(s, j, c) && c in s.cons && (timer.Some? ==> timer.value == j)
    ensures Inv(cfg, SetCon(s, c, s.cons[c].(timer := timer)), x)
  {
    hide ListsOk, RefsOk, CountsOk, KeysOk, Durable, RetriesOk, TraceOk, TimersOk, WatchOk;
    RunningLive(s, x.floating, j);
    var con := s.cons[c].(timer := timer);
    if x.timed { ArmTimers(s, c, j, timer); }
    if x.watched { WatchLess(s, SetCon(s, c, con)); }
    ConInv(cfg, s, x, {}, c, con);
  }

  lemma ArmTimerInv(cfg: Config, s: State, x: Phase, c: Id, j: Id)
    requires Inv(cfg, s, x) && Steady(x) && RunsOn(s, j, c)
    ensures Inv(cfg, ArmTimer(s, c, j), x)
  {
    hide Inv, RunsOn, Registered;
    if c in s.cons && j in s.jobs {
      TimeoutInv(cfg, s, x, c, j, None);
      TimeoutInv(cfg, s, x, c, j, Some(j));
    }
  }

  lemma GrabInv(cfg: Config, s: State, x: Phase, c: Id, sendOk: bool)
    requires Inv(cfg, s, x) && Steady(x) && c in Live(s.cons)
    ensures Inv(cfg, GrabJob(cfg, s, c, sendOk), x)
  {
    hide Inv, Take, Awake, ArmTimer, JobQueue, Fresh, Unassigned;
    AwakeInv(cfg, s, x, c);
    TakeInv(cfg, Awake(s, c), x, c);
    var (s1, j) := Take(cfg, Awake(s, c), c);
    EmitInv(cfg, s1, Taken(x, j), NoJob(c));
    if j.Some? {
      FreshRuns(cfg, s1, c, j.value);
      JobQueueInv(cfg, s1, Taken(x, j), j.value);
      ForgetInv(cfg, JobQueue(cfg, s1, j.value), x, j.value);
      ForgetInv(cfg, s1, x, j.value);
      AssignInv(cfg, s1, x, c, j.value);
      ArmTimerInv(cfg, Emit(s1, Assign(c, j.value)), x, c, j.value);
    }
  }

  // Sleeping

  lemma {:induction false} PeekLooks(cfg: Config, s: State, c: Id)
    requires Peek(cfg, s, c).1.None?
    ensures var t := Peek(cfg, s, c).0; Look(t, List(t.conWorkers, c)).None?
    decreases |s.jobs|
  {
    hide Look, Take, FreeJob;
    var j := Look(s, List(s.conWorkers, c));
    if j.Some? && j.value in s.jobs && s.jobs[j.value].ignore {
      var (s1, t) := Take(cfg, SetJob(s, j.value, s.jobs[j.value].(ignore := false)), c);
      if t.Some? && s1.jobs[t.value].spec.fn in s1.fns {
        var s2 := FreeJob(cfg, s1, t.value);
        FreeJobKeys(cfg, s1, t.value);
        Shrinks(s, s2, t.value);
        PeekLooks(cfg, s2, c);
      }
    }
  }

  lemma {:induction false} LookNone(s: State, ws: seq<Id>, w: Id)
    requires Look(s, ws).None? && w in ws
    ensures w in s.workers && s.workers[w].fn in s.fns && s.fns[s.workers[w].fn].jobCount != 0 ==>
              LookAt(s, w, PRIORITIES).None?
  {
    hide LookAt;
    if w != ws[0] {
      assert ws == [ws[0]] + ws[1..];
      LookNone(s, ws[1..], w);
    }
  }

  lemma {:induction false} LookAtNone(s: State, w: Id, ps: seq<Priority>, p: Priority)
    requires w in s.workers && LookAt(s, w, ps).None? && p in ps
    ensures var q := List(s.fifo, (s.workers[w].fn, p)); FirstDue(s.jobs, q, s.clock) == |q|
  {
    hide FirstDue;
    if p != ps[0] {
      assert ps == [ps[0]] + ps[1..];
      LookAtNone(s, w, ps[1..], p);
    }
  }

  lemma Ranked(p: Priority)
    ensures p in PRIORITIES
  {
    assert p == High || p == Normal || p == Low;
    assert PRIORITIES[0] == High && PRIORITIES[1] == Normal && PRIORITIES[2] == Low;
  }

  /** A connection that found nothing has no due job to be woken for. */
  lemma NothingDue(cfg: Config, s: State, x: Phase, c: Id, w: Id, k: Home, j: Id)
    requires Inv(cfg, s, x) && Look(s, List(s.conWorkers, c)).None?
    requires w in s.workers && s.workers[w].con == c && k.0 == s.workers[w].fn && k in s.fifo && j in s.fifo[k]
               && j in s.jobs
    ensures !Due(s.jobs[j], s.clock)
  {
    hide Inv, Look, LookAt, FirstDue, NoDup;
    ConWorkers(cfg, s, x, c);
    FifoNames(cfg, s, x);
    LookNone(s, List(s.conWorkers, c), w);
    Busy(cfg, s, x, k, j);
    Ranked(k.1);
    LookAtNone(s, w, PRIORITIES, k.1);
    var i :| 0 <= i < |s.fifo[k]| && s.fifo[k][i] == j;
  }

  lemma Busy(cfg: Config, s: State, x: Phase, k: Home, j: Id)
    requires Inv(cfg, s, x) && k in s.fifo && j in s.fifo[k] && k.0 in s.fns
    ensures s.fns[k.0].jobCount != 0
  {
    hide ListsOk, RefsOk, KeysOk, Durable, RetriesOk, TraceOk, TimersOk, WatchOk, JobsOf, RunningOf;
    assert k.1 == High || k.1 == Normal || k.1 == Low;
    assert CountOk(s.fns[k.0], k.0, s.jobs, s.runs, s.fifo);
  }

  lemma SleepWatch(s: State, c: Id, con: Con)
    requires WatchOk(s.fns, s.fifo, s.jobs, s.workers, s.cons, s.clock)
    requires forall w, k: Home, j :: w in s.workers && s.workers[w].con == c && k.0 == s.workers[w].fn && k in s.fifo
               && j in s.fifo[k] && j in s.jobs
               ==> !Due(s.jobs[j], s.clock)
    ensures WatchOk(s.fns, s.fifo, s.jobs, s.workers, s.cons[c := con], s.clock)
  {
    var cons := s.cons[c := con];
    forall k, j | k in s.fifo && j in s.fifo[k] && k.0 in s.fns && j in s.jobs
      ensures Heeded(s.fns[k.0], s.jobs[j].spec.when, s.clock, Dozing(s.workers, cons, k.0)) {
      if Dozing(s.workers, cons, k.0) && !Dozing(s.workers, s.cons, k.0) {
        var w :| w in s.workers && s.workers[w].fn == k.0 && Dozes(cons, s.workers[w].con);
        assert !Dozes(s.cons, s.workers[w].con);
        assert s.workers[w].con == c;
      }
    }
  }

  lemma SleepInv(cfg: Config, s: State, x: Phase, c: Id)
    requires Inv(cfg, s, x) && Steady(x) && c in Live(s.cons) && Look(s, List(s.conWorkers, c)).None?
    ensures Inv(cfg, SetCon(s, c, s.cons[c].(sleeping := true, timer := None)), x)
  {
    var con := s.cons[c].(sleeping := true, timer := None);
    hide ListsOk, RefsOk, CountsOk, KeysOk, Durable, RetriesOk, TraceOk, TimersOk, WatchOk, Look;
    if x.timed { CalmTimers(s, {}, c, con); }
    if x.watched {
      forall w, k: Home, j | w in s.workers && s.workers[w].con == c && k.0 == s.workers[w].fn && k in s.fifo
          && j in s.fifo[k] && j in s.jobs
        ensures !Due(s.jobs[j], s.clock) {
        NothingDue(cfg, s, x, c, w, k, j);
      }
      SleepWatch(s, c, con);
    }
    ConInv(cfg, s, x, {}, c, con);
  }

  lemma PreSleepInv(cfg: Config, s: State, x: Phase, c: Id)
    requires Inv(cfg, s, x) && Steady(x) && c in Live(s.cons)
    ensures Inv(cfg, Sleep(cfg, s, c), x)
  {
    hide Inv, Peek, Look, Live, Life, Accepts;
    PeekInv(cfg, s, x, c);
    var (s1, j) := Peek(cfg, s, c);
    EmitInv(cfg, s1, x, Noop(c));
    if j.None? {
      PeekLooks(cfg, s, c);
      PeekLife(cfg, s, c);
      SameLive(s, s1, c);
      SleepInv(cfg, s1, x, c);
    }
  }

  lemma {:induction false} PeekLife(cfg: Config, s: State, c: Id)
    ensures var t := Peek(cfg, s, c).0; Life(t.cons) == Life(s.cons) && Accepts(t.out) == Accepts(s.out)
    decreases |s.jobs|
  {
    hide Look, Take, FreeJob, Life, Accepts;
    var j := Look(s, List(s.conWorkers, c));
    if j.Some? && j.value in s.jobs && s.jobs[j.value].ignore {
      var s0 := SetJob(s, j.value, s.jobs[j.value].(ignore := false));
      TakeLife(cfg, s0, c);
      var (s1, t) := Take(cfg, s0, c);
      if t.Some? && s1.jobs[t.value].spec.fn in s1.fns {
        var s2 := FreeJob(cfg, s1, t.value);
        FreeJobFrame(cfg, s1, t.value);
        FreeJobKeys(cfg, s1, t.value);
        Shrinks(s, s2, t.value);
        PeekLife(cfg, s2, c);
      }
    }
  }

  lemma {:induction false} TakeLife(cfg: Config, s: State, c: Id)
    ensures var t := Take(cfg, s, c).0; Life(t.cons) == Life(s.cons) && Accepts(t.out) == Accepts(s.out)
    decreases |s.jobs|
  {
    hide Pick, FreeJob, Life, Accepts;
    var (s1, j) := Pick(cfg, s, c, PRIORITIES);
    if j.Some? && s1.jobs[j.value].ignore && s1.jobs[j.value].spec.fn in s1.fns {
      var s2 := FreeJob(cfg, s1, j.value);
      FreeJobFrame(cfg, s1, j.value);
      FreeJobKeys(cfg, s1, j.value);
      Shrinks(s, s2, j.value);
      TakeLife(cfg, s2, c);
    }
  }

  // Results

  /** The job of a handle is live and, if an owner is asked for, runs there. */
  lemma JobGets(cfg: Config, s: State, handle: string, owner: Option<Id>)
    ensures var j := JobGet(cfg, s, handle, owner);
            j.Some? ==>
              && j.value in s.jobs && s.jobs[j.value].spec.handle == handle
              && (owner.Some? ==> RunsOn(s, j.value, owner.value))
  {
    var key := cfg.hash(handle);
    FindSpec(s.jobs, List(s.handleIx, Bucket(cfg, key)), (job: Job) => job.spec.handleKey == key
        && job.spec.handle == handle);
  }

  lemma AcceptedInv(cfg: Config, s: State, x: Phase, c: Id, j: Id)
    requires Inv(cfg, s, x) && Steady(x) && j in s.jobs
    ensures var t := Emit(s, Accepted(c, j));
            && Inv(cfg, t, x.(spent := {j}))
            && (x.traced ==> forall cl :: cl in List(s.jobClients, j) ==> !Closed(t.out, cl))
  {
    hide ListsOk, RefsOk, CountsOk, KeysOk, Durable, RetriesOk, TraceOk, TimersOk, WatchOk, Closed;
    JobFacts(s, x.floating, j);
    if x.traced {
      Unclosed(cfg, s, x, j);
      AcceptTrace(s.out, s.clients, s.jobs, s.nextClient, s.nextJob, c, j);
    }
    SpendInv(cfg, s, x, j);
    EmitRetries(cfg, s, Accepted(c, j), {j});
    OutOnly(cfg, s, x.(spent := {j}), s.out + [Accepted(c, j)]);
  }

  /** What the clients are told matters only to the guarantee about it. */
  lemma UntracedInv(cfg: Config, s: State, x: Phase, cls: seq<Id>, j: Id, kind: Kind)
    requires Inv(cfg, s, x) && !x.traced
    ensures Inv(cfg, FanOut(s, cls, j, kind), x)
  {
    hide ListsOk, RefsOk, CountsOk, KeysOk, Durable, RetriesOk, TimersOk, WatchOk, FanOut;
    FanOutRetries(cfg, s, x.spent, cls, j, kind);
    OutOnly(cfg, s, x, FanOut(s, cls, j, kind).out);
  }

  lemma UntracedAccept(cfg: Config, s: State, x: Phase, c: Id, j: Id)
    requires Inv(cfg, s, x) && !x.traced
    ensures Inv(cfg, Emit(s, Accepted(c, j)), x)
  {
    hide ListsOk, RefsOk, CountsOk, KeysOk, Durable, RetriesOk, TimersOk, WatchOk;
    EmitRetries(cfg, s, Accepted(c, j), x.spent);
    OutOnly(cfg, s, x, s.out + [Accepted(c, j)]);
  }

  lemma CompleteInv(cfg: Config, s: State, x: Phase, c: Id, j: Id, kind: Kind)
    requires Inv(cfg, s, x) && Steady(x) && j in s.runs && j in s.jobs && Terminal(kind)
    ensures Inv(cfg, FreeJob(cfg, QueueDone(FanOut(Emit(s, Accepted(c, j)), List(s.jobClients, j), j, kind), j), j), x)
  {
    hide Inv, FanOut, QueueDone, FreeJob, Closed;
    AcceptedInv(cfg, s, x, c, j);
    var y, s1 := x.(spent := {j}), Emit(s, Accepted(c, j));
    FanOutInv(cfg, s1, y, j, kind);
    assert {j} + {j} == {j};
    var s2 := FanOut(s1, List(s.jobClients, j), j, kind);
    QueueDoneInv(cfg, s2, y, j);
    FreeJobInv(cfg, QueueDone(s2, j), y, j);
  }

  lemma ResultInv(cfg: Config, s: State, x: Phase, c: Id, handle: string, kind: Kind, storeOk: bool)
    requires Inv(cfg, s, x) && Steady(x) && Terminal(kind) && (x.traced ==> Settles(cfg, s, c, handle, storeOk))
    ensures Inv(cfg, WorkResult(cfg, s, c, handle, kind, storeOk), x)
  {
    hide Inv, FanOut, QueueDone, FreeJob, JobGet;
    EmitInv(cfg, s, x, Error(c));
    JobGets(cfg, s, handle, Some(c));
    var j := JobGet(cfg, s, handle, Some(c));
    if j.Some? {
      CompleteInv(cfg, s, x, c, j.value, kind);
      if s.jobs[j.value].queued && !storeOk {
        UntracedAccept(cfg, s, x, c, j.value);
        UntracedInv(cfg, Emit(s, Accepted(c, j.value)), x, List(s.jobClients, j.value), j.value, kind);
      }
    }
  }

  lemma UpdateInv(cfg: Config, s: State, x: Phase, c: Id, handle: string, kind: Kind)
    requires Inv(cfg, s, x) && Steady(x) && !Terminal(kind)
    ensures Inv(cfg, WorkUpdate(cfg, s, c, handle, kind), x)
  {
    hide Inv, FanOut, JobGet, Closed;
    EmitInv(cfg, s, x, Error(c));
    var j := JobGet(cfg, s, handle, Some(c));
    if j.Some? {
      if x.traced { Unclosed(cfg, s, x, j.value); }
      FanOutInv(cfg, s, x, j.value, kind);
    }
  }

  lemma CanceledStore(cfg: Config, jobs: Jobs, store: set<Key>, j: Id)
    requires KeysOk(cfg, jobs) && Durable(jobs, store, {}) && j in jobs && !jobs[j].queued
    ensures Durable(jobs, store - {KeyOf(jobs[j])}, {})
  {
    hide KeyedOk, HandleOk;
    forall k | k in jobs && k != j && Named(jobs[k].spec) ensures KeyOf(jobs[k]) != KeyOf(jobs[j]) {
      assert !Equal(jobs[k].spec, jobs[j].spec);
    }
  }

  lemma CanceledInv(cfg: Config, s: State, x: Phase, j: Id)
    requires Inv(cfg, s, x) && Steady(x) && j in s.jobs
    ensures Inv(cfg, SetJob(QueueDone(s, j), j, s.jobs[j].(ignore := true, queued := false)), x)
  {
    hide Inv, Durable, KeysOk, RetriesOk;
    var job := s.jobs[j].(ignore := true, queued := false);
    FlagInv(cfg, s, x, j, job);
    var t := SetJob(s, j, job);
    Parts(cfg, t, x);
    Indexed(cfg, t, x);
    CanceledStore(cfg, t.jobs, t.store, j);
    StoreInv(cfg, t, x, t.store - {KeyOf(job)});
  }

  lemma CancelInv(cfg: Config, s: State, x: Phase, handle: string, storeOk: bool)
    requires Inv(cfg, s, x) && Steady(x)
    requires x.traced ==> var j := JobGet(cfg, s, handle, None); j.Some? ==> List(s.jobClients, j.value) == []
    ensures Inv(cfg, CancelJob(cfg, s, handle, storeOk), x)
  {
    hide Inv, QueueDone, JobGet;
    var j := JobGet(cfg, s, handle, None);
    if j.Some? && j.value in s.jobs {
      var cls := List(s.jobClients, j.value);
      if !x.traced { UntracedInv(cfg, s, x, cls, j.value, Fail); }
      CanceledInv(cfg, FanOut(s, cls, j.value, Fail), x, j.value);
    }
  }

  // Timers

  lemma ExpireTimers(s: State, c: Id, j: Id)
    requires TimersOk(s.cons, s.runs, s.workers, {}) && RunsOn(s, j, c) && c in s.cons
    ensures TimersOk(s.cons[c := s.cons[c].(timer := None)], s.runs, s.workers, {j})
  {}

  lemma ExpireInv(cfg: Config, s: State, x: Phase, c: Id, j: Id)
    requires Inv(cfg, s, x) && Steady(x) && RunsOn(s, j, c) && c in s.cons
    ensures Inv(cfg, SetCon(s, c, s.cons[c].(timer := None)), x.(quiet := {j}))
  {
    hide ListsOk, RefsOk, CountsOk, KeysOk, Durable, RetriesOk, TraceOk, TimersOk, WatchOk;
    RunningLive(s, x.floating, j);
    var con := s.cons[c].(timer := None);
    if x.timed { ExpireTimers(s, c, j); }
    if x.watched { WatchLess(s, SetCon(s, c, con)); }
    ConInv(cfg, s, x, {j}, c, con);
  }

  lemma ExpiredInv(cfg: Config, s: State, x: Phase, c: Id, j: Id)
    requires Inv(cfg, s, x) && Steady(x) && RunsOn(s, j, c) && c in s.cons
    ensures Inv(cfg, JobQueue(cfg, SetCon(s, c, s.cons[c].(timer := None)), j), x)
  {
    hide Inv, JobQueue;
    ExpireInv(cfg, s, x, c, j);
    var t := SetCon(s, c, s.cons[c].(timer := None));
    JobQueueInv(cfg, t, x.(quiet := {j}), j);
    assert {} + {j} == {j};
    ForgetInv(cfg, JobQueue(cfg, t, j), x, j);
  }

  lemma DeadFirst(cfg: Config, s: State, x: Phase, c: Id)
    requires Inv(cfg, s, x) && c in s.cons
    ensures s.cons[c].removed ==> s.cons[c].dead
  {
    hide ListsOk, CountsOk, KeysOk, Durable, RetriesOk, TraceOk, TimersOk, WatchOk, JobRefs, RunRefs, WorkerRefs,
         ClientRefs;
  }

  /** The timeout of a connection that is not dead comes while its job runs there. */
  lemma TimelyRuns(cfg: Config, s: State, x: Phase, c: Id, j: Id)
    requires Inv(cfg, s, x) && Steady(x) && x.timed && c in s.cons && !s.cons[c].dead && s.cons[c].timer == Some(j)
    ensures RunsOn(s, j, c) && j in s.jobs && j in s.runs
  {
    hide ListsOk, CountsOk, KeysOk, Durable, RetriesOk, TraceOk, WatchOk, WorkerRefs, ClientRefs, ConRefs, JobRefs;
  }

  lemma JobTimeoutInv(cfg: Config, s: State, x: Phase, c: Id, j: Id)
    requires Inv(cfg, s, x) && Steady(x) && c in s.cons && s.cons[c].timer == Some(j)
    requires if x.timed then !s.cons[c].dead else Punctual(s, j)
    ensures Inv(cfg, JobQueue(cfg, SetCon(s, c, s.cons[c].(timer := None)), j), x)
  {
    hide Inv, RunsOn, Detach, Enqueue, Drop, Exhausted, Again, Retried;
    var t := SetCon(s, c, s.cons[c].(timer := None));
    DeadFirst(cfg, s, x, c);
    CalmInv(cfg, s, x, c, s.cons[c].(timer := None));
    if x.timed {
      TimelyRuns(cfg, s, x, c, j);
      ExpiredInv(cfg, s, x, c, j);
    } else if j in s.jobs {
      JobQueueInv(cfg, t, x, j);
    }
  }

  lemma FnCounts(s: State, f: Name, fn: Func)
    requires CountsOk(s.fns, s.jobs, s.runs, s.fifo) && f in s.fns
    requires fn.jobCount == s.fns[f].jobCount && fn.jobTotal == s.fns[f].jobTotal
               && fn.jobRunning == s.fns[f].jobRunning
    ensures CountsOk(s.fns[f := fn], s.jobs, s.runs, s.fifo)
  {
    hide JobsOf, RunningOf, QueuedOf;
  }

  /** What of a function is no counter may change. */
  lemma FnInv(cfg: Config, s: State, x: Phase, f: Name, fn: Func)
    requires Inv(cfg, s, x) && f in s.fns
    requires fn.jobCount == s.fns[f].jobCount && fn.jobTotal == s.fns[f].jobTotal
               && fn.jobRunning == s.fns[f].jobRunning
    requires x.watched ==> WatchOk(s.fns[f := fn], s.fifo, s.jobs, s.workers, s.cons, s.clock)
    ensures Inv(cfg, SetFn(s, f, fn), x)
  {
    hide Owned, Owner, Waiting, HandleBuckets, UniqueBuckets, JobRefs, RunRefs, WorkerRefs, ClientRefs, ConRefs, Live,
         CountsOk, KeysOk, Durable, RetriesOk, TraceOk, TimersOk, WatchOk;
    FnCounts(s, f, fn);
    assert s.fns[f := fn].Keys == s.fns.Keys;
  }

  lemma MaxQueueInv(cfg: Config, s: State, x: Phase, f: Name, limits: map<Priority, nat>)
    requires Inv(cfg, s, x) && f in s.fns
    ensures Inv(cfg, SetFn(s, f, s.fns[f].(maxQueue := limits)), x)
  {
    hide ListsOk, RefsOk, CountsOk, KeysOk, Durable, RetriesOk, TraceOk, TimersOk, WatchOk;
    var fn := s.fns[f].(maxQueue := limits);
    if x.watched { WatchLess(s, SetFn(s, f, fn)); }
    FnInv(cfg, s, x, f, fn);
  }

  /** After the epoch timer of `f` fired and all its workers were woken, the timer is set again
      for what is still not due. */
  lemma EpochWatch(fns: map<Name, Func>, s: State, f: Name)
    requires f in fns && WatchOk(fns, s.fifo, s.jobs, s.workers, s.cons, s.clock) && !Dozing(s.workers, s.cons, f)
    ensures WatchOk(fns[f := Rearm(fns[f].(timer := None), s.clock)], s.fifo, s.jobs, s.workers, s.cons, s.clock)
  {
    hide Dozing, Prune;
    PruneSorted(fns[f].pending, s.clock);
    var fn := Rearm(fns[f].(timer := None), s.clock);
    assert fn.pending != [] ==> fn.pending[0] in fn.pending;
    forall k, j | k in s.fifo && j in s.fifo[k] && k.0 in fns && j in s.jobs && k.0 == f
      ensures Heeded(fn, s.jobs[j].spec.when, s.clock, false) {
      assert Heeded(fns[f], s.jobs[j].spec.when, s.clock, Dozing(s.workers, s.cons, f));
    }
  }

  lemma EpochFired(cfg: Config, s: State, x: Phase, f: Name)
    requires Inv(cfg, s, x) && !x.watched && f in s.fns
    ensures Inv(cfg, EpochFire(cfg, s, f), x)
  {
    hide Inv, Wake, Rearm;
    FnInv(cfg, s, x, f, s.fns[f].(timer := None));
    var s0 := SetFn(s, f, s.fns[f].(timer := None));
    WakeInv(cfg, s0, x, f);
    var s1 := Wake(s0, f, cfg.workerWakeup);
    FnInv(cfg, s1, x, f, Rearm(s1.fns[f], s.clock));
  }

  lemma EpochWatched(cfg: Config, s: State, floating: set<Id>, f: Name)
    requires WatchOk(s.fns, s.fifo, s.jobs, s.workers, s.cons, s.clock) && ListsOk(cfg, s, floating) && f in s.fns
    requires cfg.workerWakeup == 0
    ensures var t := EpochFire(cfg, s, f); WatchOk(t.fns, t.fifo, t.jobs, t.workers, t.cons, t.clock)
  {
    hide WatchOk, Wake, Rearm, Dozing, Owned, Owner, Waiting, HandleBuckets, UniqueBuckets;
    var s0 := SetFn(s, f, s.fns[f].(timer := None));
    WakesAll(cfg, s0, floating, f);
    WakeWatch(s0, f, s.fns, 0);
    EpochWatch(s.fns, Wake(s0, f, 0), f);
    assert s0.fns[f := Rearm(s0.fns[f], s.clock)] == s.fns[f := Rearm(s0.fns[f], s.clock)];
  }

  lemma EpochInv(cfg: Config, s: State, x: Phase, f: Name)
    requires Inv(cfg, s, x) && f in s.fns
    ensures Inv(cfg, EpochFire(cfg, s, f), x)
  {
    hide ListsOk, RefsOk, CountsOk, KeysOk, Durable, RetriesOk, TraceOk, TimersOk, WatchOk, EpochFire;
    WeakenInv(cfg, s, x, x.(watched := false));
    EpochFired(cfg, s, x.(watched := false), f);
    if x.watched { EpochWatched(cfg, s, x.floating, f); }
  }

  /** Waking is harmless. */
  lemma WakeWatch(s: State, f: Name, fns: map<Name, Func>, limit: nat)
    requires WatchOk(fns, s.fifo, s.jobs, s.workers, s.cons, s.clock)
    ensures var t := Wake(s, f, limit); WatchOk(fns, t.fifo, t.jobs, t.workers, t.cons, t.clock)
  {
    hide WatchOk, WakeLoop, Dozes;
    var ws := List(s.fnWorkers, f);
    forall c: Id { WakeLoopWakes(s, ws, limit, 0, c); }
    WatchLess(s.(fns := fns), Wake(s, f, limit).(fns := fns));
  }

  lemma TickWatch(s: State, now: int)
    requires WatchOk(s.fns, s.fifo, s.jobs, s.workers, s.cons, s.clock) && s.clock <= now
    ensures WatchOk(s.fns, s.fifo, s.jobs, s.workers, s.cons, now)
  {
    hide Dozing, Sorted;
  }

  lemma TickInv(cfg: Config, s: State, x: Phase, now: int)
    requires Inv(cfg, s, x) && s.clock <= now
    ensures Inv(cfg, s.(clock := now), x)
  {
    hide Owned, Owner, Waiting, HandleBuckets, UniqueBuckets, JobRefs, RunRefs, WorkerRefs, ClientRefs, ConRefs, Live,
         CountsOk, KeysOk, Durable, RetriesOk, TraceOk, TimersOk, WatchOk;
    if x.watched { TickWatch(s, now); }
  }

  // All steps

  lemma FlagsInv(cfg: Config, s: State, x: Phase, e: Event)
    requires Inv(cfg, s, x) && Enabled(cfg, s, e) && (e.Connect? || e.Disconnect? || e.Exceptions?)
    ensures Inv(cfg, Step(cfg, s, e), x)
  {
    hide Inv;
    CalmInv(cfg, s, x, e.con, Step(cfg, s, e).cons[e.con]);
  }

  /** Whatever happens to the server, its invariant is kept, and with it each of the conditional
      guarantees whose condition the step meets. */
  lemma StepInv(cfg: Config, s: State, x: Phase, e: Event)
    requires Inv(cfg, s, x) && Steady(x) && Enabled(cfg, s, e) && Allowed(cfg, s, x, e)
    ensures Inv(cfg, Step(cfg, s, e), x)
  {
    hide Inv, JobAdd, SubmitJob, GrabJob, Sleep, WorkResult, WorkUpdate, CancelJob, EpochFire, CleanUp, FreeWorkers,
         Registered, AddWorker, JobQueue,
         TakeHangs, PeekHangs, JobGet, Apart, Dozes, Punctual, Settles, Truncate, CString;
    match e
    case Connect(c) => FlagsInv(cfg, s, x, e);
    case Disconnect(c) => FlagsInv(cfg, s, x, e);
    case Cleanup(c) => CleanUpInv(cfg, s, x, c);
    case Destroy(c) => DestroyInv(cfg, s, x, c);
    case CanDo(c, f, t) => AddWorkerInv(cfg, s, x, c, f, t);
    case CantDo(c, f) => CantDoInv(cfg, s, x, c, f);
    case ResetAbilities(c) => ResetInv(cfg, s, x, c);
    case Submit(c, f, u, d, p, when, origin) => SubmitInv(cfg, s, x, c, f, u, d, p, when, origin);
    case Replay(f, u, d, p, when) => JobAddInv(cfg, s, x, f, u, d, p, when, Replayed);
    case Grab(c, ok) => GrabInv(cfg, s, x, c, ok);
    case PreSleep(c) => PreSleepInv(cfg, s, x, c);
    case Result(c, h, k, ok) => ResultInv(cfg, s, x, c, h, k, ok);
    case Update(c, h, k) => UpdateInv(cfg, s, x, c, h, k);
    case Cancel(h, ok) => CancelInv(cfg, s, x, h, ok);
    case Exceptions(c) => FlagsInv(cfg, s, x, e);
    case MaxQueue(f, limits) => if f in s.fns { MaxQueueInv(cfg, s, x, f, limits); }
    case JobTimeout(c) => JobTimeoutInv(cfg, s, x, c, s.cons[c].timer.value);
    case EpochTimer(f) => EpochInv(cfg, s, x, f);
    case Tick(now) => TickInv(cfg, s, x, now);
  }

  /** A step that meets the condition about timeouts brings none while its job waits. */
  lemma OrderlyStep(cfg: Config, s: State, x: Phase, e: Event)
    requires Inv(cfg, s, x) && Steady(x) && x.timed && Allowed(cfg, s, x, e)
    ensures Allowed(cfg, s, x.(timed := false), e)
  {
    hide Inv, RunsOn, Apart, Dozes, JobGet, Settles, Registered;
    if e.JobTimeout? && e.con in s.cons && s.cons[e.con].timer.Some? && !s.cons[e.con].dead {
      TimelyRuns(cfg, s, x, e.con, s.cons[e.con].timer.value);
    }
  }

  lemma InitInv(cfg: Config, x: Phase, store: set<Key>, now: int)
    requires Steady(x) && cfg.jobRetries <= 255 && (x.watched ==> cfg.workerWakeup == 0 && now >= 0)
    ensures Inv(cfg, Init(store, now), x)
  {}

  /** Each event of the run meets the conditions of the guarantees `x`, when it happens. */
  ghost predicate AllAllowed(cfg: Config, s: State, x: Phase, es: seq<Event>)
    requires Runs(cfg, s, es)
    decreases |es|
  {
    es == [] || (Allowed(cfg, s, x, es[0]) && AllAllowed(cfg, Step(cfg, s, es[0]), x, es[1..]))
  }

  lemma {:induction false} RunInv(cfg: Config, s: State, x: Phase, es: seq<Event>)
    requires Inv(cfg, s, x) && Steady(x) && Runs(cfg, s, es) && AllAllowed(cfg, s, x, es)
    ensures Inv(cfg, Run(cfg, s, es), x)
    decreases |es|
  {
    hide Inv, Step, Allowed, Enabled;
    if es != [] {
      StepInv(cfg, s, x, es[0]);
      RunInv(cfg, Step(cfg, s, es[0]), x, es[1..]);
    }
  }

  /** A run in which no CANT_DO or RESET_ABILITIES removes the worker of a timed job, and no timeout of a
      dead connection fires, is one in which every timeout comes while its job runs. */
  lemma {:induction false} OrderlyRun(cfg: Config, s: State, x: Phase, es: seq<Event>)
    requires Inv(cfg, s, x) && Steady(x) && x.timed && Runs(cfg, s, es) && AllAllowed(cfg, s, x, es)
    ensures AllAllowed(cfg, s, x.(timed := false), es)
    decreases |es|
  {
    hide Inv, Step, Allowed, Enabled;
    if es != [] {
      OrderlyStep(cfg, s, x, es[0]);
      StepInv(cfg, s, x, es[0]);
      OrderlyRun(cfg, Step(cfg, s, es[0]), x, es[1..]);
    }
  }

  // Who ends a job

  /** What a step accepts: the result of a job from the connection that runs it, or nothing. */
  ghost function Accepting(cfg: Config, s: State, e: Event): seq<Output> {
    if !e.Result? || (e.kind == Fail && |e.handle| >= JOB_HANDLE_SIZE) then [] else
    var j := JobGet(cfg, s, e.handle, Some(e.con));
    if j.Some? && RunsOn(s, j.value, e.con) then [Accepted(e.con, j.value)] else []
  }

  lemma ResultAccepts(cfg: Config, s: State, c: Id, h: string, k: Kind, ok: bool)
    ensures Accepts(WorkResult(cfg, s, c, h, k, ok).out) == Accepts(s.out) + Accepting(cfg, s, Result(c, h, k, ok))
  {
    hide FanOut, QueueDone, FreeJob, JobGet, Accepts, RunsOn;
    AcceptsEmit(s.out, Error(c));
    JobGets(cfg, s, h, Some(c));
    var j := JobGet(cfg, s, h, Some(c));
    if j.Some? {
      AcceptsEmit(s.out, Accepted(c, j.value));
      FreeJobFrame(cfg, QueueDone(FanOut(Emit(s, Accepted(c, j.value)), List(s.jobClients, j.value), j.value, k),
          j.value), j.value);
    }
    assert Accepts(s.out) + [] == Accepts(s.out);
  }

  lemma GrabAccepts(cfg: Config, s: State, x: Phase, c: Id, ok: bool)
    requires Inv(cfg, s, x) && Steady(x) && c in Live(s.cons)
    ensures Accepts(GrabJob(cfg, s, c, ok).out) == Accepts(s.out)
  {
    hide Inv, Take, JobQueue, Registered, Accepts, Fresh, Life;
    var s0 := Awake(s, c);
    TakeLife(cfg, s0, c);
    var (s1, j) := Take(cfg, s0, c);
    AcceptsEmit(s1.out, NoJob(c));
    if j.Some? {
      AcceptsEmit(s1.out, Assign(c, j.value));
      AwakeInv(cfg, s, x, c);
      TakeInv(cfg, s0, x, c);
      FreshRuns(cfg, s1, c, j.value);
      Floating(cfg, s1, Taken(x, j), j.value);
      JobQueueFrame(cfg, s1, j.value);
    }
  }

  lemma SleepAccepts(cfg: Config, s: State, c: Id)
    ensures Accepts(Sleep(cfg, s, c).out) == Accepts(s.out)
  {
    hide Peek, Accepts, Life;
    PeekLife(cfg, s, c);
    var (s1, j) := Peek(cfg, s, c);
    AcceptsEmit(s1.out, Noop(c));
    if j.Some? {
      assert Sleep(cfg, s, c) == Emit(s1, Noop(c));
    } else {
      assert Sleep(cfg, s, c).out == s1.out;
    }
  }

  lemma SubmitAccepts(cfg: Config, s: State, c: Id, f: Name, u: string, d: string, p: Priority, when: int,
      origin: Origin)
    ensures Accepts(SubmitJob(cfg, s, c, f, u, d, p, when, origin).out) == Accepts(s.out)
  {
    hide JobAdd, Accepts, Life, AddClient;
    JobAddLife(cfg, s, f, u, d, p, when, origin);
    var (s1, r) := JobAdd(cfg, s, f, u, d, p, when, origin);
    var t := SubmitJob(cfg, s, c, f, u, d, p, when, origin);
    if |u| > MAX_UNIQUE_SIZE {
      AcceptsEmit(s.out, Error(c));
    } else if r.Full? || r.StoreFailed? {
      AcceptsEmit(s1.out, Error(c));
      assert t.out == s1.out + [Error(c)];
    } else {
      AcceptsEmit(s1.out, Created(c, r.job));
      assert t.out == s1.out + [Created(c, r.job)];
    }
  }

  lemma UpdateAccepts(cfg: Config, s: State, c: Id, h: string, k: Kind)
    ensures Accepts(WorkUpdate(cfg, s, c, h, k).out) == Accepts(s.out)
  {
    hide FanOut, JobGet, Accepts;
    AcceptsEmit(s.out, Error(c));
  }

  lemma TimeoutAccepts(cfg: Config, s: State, x: Phase, c: Id, j: Id)
    requires Inv(cfg, s, x) && c in s.cons
    ensures Accepts(JobQueue(cfg, SetCon(s, c, s.cons[c].(timer := None)), j).out) == Accepts(s.out)
  {
    hide Inv, Accepts, Drop, Enqueue, Detach, Again, Exhausted, Retried, Life;
    var t := SetCon(s, c, s.cons[c].(timer := None));
    Floating(cfg, s, x, j);
    if j in s.runs { JobQueueFrame(cfg, t, j); } else { EnqueueFrame(cfg, t, j); }
  }

  lemma ReleaseAccepts(cfg: Config, s: State, x: Phase, e: Event)
    requires Inv(cfg, s, x) && Steady(x) && !x.timed && Enabled(cfg, s, e)
               && (e.Cleanup? || e.CantDo? || e.ResetAbilities?)
    ensures Accepts(Step(cfg, s, e).out) == Accepts(s.out)
  {
    hide Inv, Accepts, FreeWorkers, FreeClients, Registered, Apart, Life;
    match e
    case Cleanup(c) => ResetInv(cfg, s, x, c);
    case CantDo(c, f) => CantDoInv(cfg, s, x, c, f);
    case ResetAbilities(c) => ResetInv(cfg, s, x, c);
  }

  lemma QuietAccepts(cfg: Config, s: State, e: Event)
    requires Enabled(cfg, s, e) && (e.CanDo? || e.Cancel? || e.EpochTimer? || e.MaxQueue? || e.Replay?)
    ensures Accepts(Step(cfg, s, e).out) == Accepts(s.out)
  {
    hide Accepts, JobAdd, JobGet, Wake, Rearm, FanOut, QueueDone, EnsureFn, Truncate, CString, Life;
    if e.Replay? { JobAddLife(cfg, s, e.fn, e.unique, e.data, e.priority, e.when, Replayed); }
  }

  /** A terminal result is accepted only by a WORK_COMPLETE, WORK_EXCEPTION or WORK_FAIL, and only
      from the connection that runs the job at that moment. */
  lemma AcceptedFromOwner(cfg: Config, s: State, x: Phase, e: Event)
    requires Inv(cfg, s, x) && Steady(x) && Enabled(cfg, s, e)
    ensures Accepts(Step(cfg, s, e).out) == Accepts(s.out) + Accepting(cfg, s, e)
  {
    hide Inv, Accepts, JobAdd, SubmitJob, GrabJob, Sleep, WorkResult, WorkUpdate, CancelJob, EpochFire, CleanUp,
         FreeWorkers, Registered, AddWorker, JobQueue,
         TakeHangs, PeekHangs, JobGet, Truncate, CString;
    assert Accepts(s.out) + [] == Accepts(s.out);
    match e
    case Submit(c, f, u, d, p, when, origin) => SubmitAccepts(cfg, s, c, f, u, d, p, when, origin);
    case Grab(c, ok) => GrabAccepts(cfg, s, x, c, ok);
    case PreSleep(c) => SleepAccepts(cfg, s, c);
    case Result(c, h, k, ok) => ResultAccepts(cfg, s, c, h, k, ok);
    case Update(c, h, k) => UpdateAccepts(cfg, s, c, h, k);
    case JobTimeout(c) => TimeoutAccepts(cfg, s, x, c, s.cons[c].timer.value);
    case _ =>
      if e.Cleanup? || e.CantDo? || e.ResetAbilities? {
        WeakenInv(cfg, s, x, x.(timed := false));
        ReleaseAccepts(cfg, s, x.(timed := false), e);
      } else if e.CanDo? || e.Cancel? || e.EpochTimer? || e.MaxQueue? || e.Replay? {
        QuietAccepts(cfg, s, e);
      }
  }
}
