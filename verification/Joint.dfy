/** The threads and the scheduler together: when a connection is destroyed, nothing in the scheduler
    refers to it, and the threads start no step of the scheduler that it is not ready for. */
module Joint {
  import opened Seqs
  import opened Scheduler
  import opened Tables
  import opened Invariant
  import opened Notices
  import opened JobOps
  import opened Selection
  import opened Choices
  import opened Steps
  import C = Commands
  import T = ConThreads
  import P = ConSafety

  datatype Both = Both(threads: T.World, state: State)

  /** A step of a thread, or one of the scheduler. */
  datatype Move = Thread(act: T.Act) | Server(event: C.Event)

  predicate Lifecycle(e: C.Event) { e.Connect? || e.Disconnect? || e.Cleanup? || e.Destroy? }

  /** What a step of a thread is for the scheduler: a connection that comes, dies, is cleaned up by
      the processing thread, or is destroyed. */
  function Brings(w: T.World, a: T.Act): Option<C.Event>
    requires T.Enabled(w, a)
  {
    match a
    case Connect(t, c) => Some(C.Connect(c))
    case Next(t) =>
      (match w.io[t]
       case Die(c, _) => if c in w.cons && !w.cons[c].removed then Some(C.Disconnect(c)) else None
       case Gone(c) => Some(C.Destroy(c))
       case _ => None)
    case Proc => if w.proc.Mark? then Some(C.Cleanup(w.proc.con)) else None
    case _ => None
  }

  /** A command runs when the processing thread has taken a packet of its connection; timers fire at
      any time. */
  predicate OnTurn(w: T.World, e: C.Event) {
    match e
    case CanDo(c, _, _) => w.proc.Command? && w.proc.con == c
    case CantDo(c, _) => w.proc.Command? && w.proc.con == c
    case ResetAbilities(c) => w.proc.Command? && w.proc.con == c
    case Submit(c, _, _, _, _, _, _) => w.proc.Command? && w.proc.con == c
    case Grab(c, _) => w.proc.Command? && w.proc.con == c
    case PreSleep(c) => w.proc.Command? && w.proc.con == c
    case Result(c, _, _, _) => w.proc.Command? && w.proc.con == c
    case Update(c, _, _) => w.proc.Command? && w.proc.con == c
    case Exceptions(c) => w.proc.Command? && w.proc.con == c
    case _ => !Lifecycle(e)
  }

  ghost predicate Possible(cfg: Config, b: Both, x: Phase, m: Move) {
    match m
    case Thread(a) => T.Enabled(b.threads, a)
    case Server(e) => OnTurn(b.threads, e) && C.Enabled(cfg, b.state, e) && Allowed(cfg, b.state, x, e)
  }

  /** Both agree on which connections there are, which are dead and which were cleaned up. */
  ghost predicate Agree(b: Both) { Life(b.state.cons) == T.Lives(b.threads.cons) }

  lemma Same(b: Both, c: Id)
    requires Agree(b)
    ensures c in b.state.cons <==> c in b.threads.cons
    ensures c in b.threads.cons ==>
              b.state.cons[c].dead == b.threads.cons[c].dead && b.state.cons[c].removed == b.threads.cons[c].removed
  {
    var m, n := Life(b.state.cons), T.Lives(b.threads.cons);
    assert c in m <==> c in b.state.cons;
    assert c in n <==> c in b.threads.cons;
    if c in m { assert m[c] == (b.state.cons[c].dead, b.state.cons[c].removed)
        && n[c] == (b.threads.cons[c].dead, b.threads.cons[c].removed); }
  }

  ghost predicate JointInv(cfg: Config, b: Both, x: Phase) {
    P.Inv(b.threads) && Inv(cfg, b.state, x) && Steady(x) && Agree(b)
  }

  /** Whatever a thread brings, the scheduler is ready for. */
  lemma Ready(cfg: Config, b: Both, x: Phase, a: T.Act)
    requires JointInv(cfg, b, x) && T.Enabled(b.threads, a)
    ensures var e := Brings(b.threads, a);
              e.Some? ==> C.Enabled(cfg, b.state, e.value) && Allowed(cfg, b.state, x, e.value)
  {
    hide Inv, P.Inv, P.QueuesOk, P.WakeOk, Agree;
    match a
    case Connect(t, c) => P.Con(b.threads, c); Same(b, c);
    case Next(t) =>
      P.Here(b.threads, t);
      if b.threads.io[t].Die? || b.threads.io[t].Gone? { Same(b, b.threads.io[t].con); }
    case Proc =>
      P.There(b.threads);
      if b.threads.proc.Mark? { Same(b, b.threads.proc.con); }
    case _ =>
  }

  /** A thread acts, and the scheduler with it. */
  function Act(cfg: Config, b: Both, a: T.Act): Both
    requires T.Enabled(b.threads, a)
    requires var e := Brings(b.threads, a); e.Some? ==> C.Enabled(cfg, b.state, e.value)
  {
    var e := Brings(b.threads, a);
    Both(T.Step(b.threads, a), if e.Some? then C.Step(cfg, b.state, e.value) else b.state)
  }

  // What steps of the scheduler do to the life of connections

  lemma SetLife(cons: map<Id, Con>, c: Id, con: Con)
    ensures Life(cons[c := con]) == Life(cons)[c := (con.dead, con.removed)]
  {}

  lemma KeepLife(cons: map<Id, Con>, c: Id, con: Con)
    requires c in cons && con.dead == cons[c].dead && con.removed == cons[c].removed
    ensures Life(cons[c := con]) == Life(cons)
  {
    SetLife(cons, c, con);
  }

  lemma GrabLife(cfg: Config, s: State, x: Phase, c: Id, ok: bool)
    requires Inv(cfg, s, x) && Steady(x) && c in Live(s.cons)
    ensures Life(C.GrabJob(cfg, s, c, ok).cons) == Life(s.cons)
  {
    hide Inv, Take, JobQueue, Registered, Accepts, Fresh, Life;
    var s0 := C.Awake(s, c);
    KeepLife(s.cons, c, s0.cons[c]);
    TakeLife(cfg, s0, c);
    var (s1, j) := Take(cfg, s0, c);
    if j.Some? {
      AwakeInv(cfg, s, x, c);
      TakeInv(cfg, s0, x, c);
      FreshRuns(cfg, s1, c, j.value);
      Floating(cfg, s1, Taken(x, j), j.value);
      JobQueueFrame(cfg, s1, j.value);
      ArmLife(Emit(s1, Assign(c, j.value)), c, j.value);
    }
  }

  lemma ArmLife(s: State, c: Id, j: Id)
    ensures Life(C.ArmTimer(s, c, j).cons) == Life(s.cons)
  {
    hide Life, Registered;
    if c in s.cons && j in s.jobs { KeepLife(s.cons, c, C.ArmTimer(s, c, j).cons[c]); }
  }

  lemma SleepLife(cfg: Config, s: State, c: Id)
    ensures Life(C.Sleep(cfg, s, c).cons) == Life(s.cons)
  {
    hide Peek, Accepts, Life;
    PeekLife(cfg, s, c);
    var (s1, j) := Peek(cfg, s, c);
    if j.None? && c in s1.cons { KeepLife(s1.cons, c, C.Sleep(cfg, s, c).cons[c]); }
  }

  lemma ResultLife(cfg: Config, s: State, c: Id, h: string, k: Kind, ok: bool)
    ensures Life(C.WorkResult(cfg, s, c, h, k, ok).cons) == Life(s.cons)
  {
    hide FanOut, QueueDone, FreeJob, JobGet, Accepts, Life;
    var j := JobGet(cfg, s, h, Some(c));
    if j.Some? { FreeJobFrame(cfg,
        QueueDone(FanOut(Emit(s, Accepted(c, j.value)), List(s.jobClients, j.value), j.value, k), j.value), j.value); }
  }

  lemma TimeoutLife(cfg: Config, s: State, x: Phase, c: Id, j: Id)
    requires Inv(cfg, s, x) && c in s.cons
    ensures Life(JobQueue(cfg, SetCon(s, c, s.cons[c].(timer := None)), j).cons) == Life(s.cons)
  {
    hide Inv, Accepts, Drop, Enqueue, Detach, Again, Exhausted, Retried, Life;
    var t := SetCon(s, c, s.cons[c].(timer := None));
    KeepLife(s.cons, c, t.cons[c]);
    Floating(cfg, s, x, j);
    if j in s.runs { JobQueueFrame(cfg, t, j); } else { EnqueueFrame(cfg, t, j); }
  }

  lemma ReleaseLife(cfg: Config, s: State, x: Phase, e: C.Event)
    requires Inv(cfg, s, x) && Steady(x) && !x.timed && C.Enabled(cfg, s, e) && (e.CantDo? || e.ResetAbilities?)
    ensures Life(C.Step(cfg, s, e).cons) == Life(s.cons)
  {
    hide Inv, Accepts, FreeWorkers, Registered, Apart, Life, NoDup;
    ConWorkers(cfg, s, x, e.con);
    match e
    case CantDo(c, f) =>
      RegisteredSpec(s, c, f);
      ReleaseInv(cfg, s, x, c, Registered(s, c, f));
    case ResetAbilities(c) => ResetInv(cfg, s, x, c);
  }

  lemma EpochLife(cfg: Config, s: State, f: Name)
    ensures Life(C.EpochFire(cfg, s, f).cons) == Life(s.cons)
  {
    hide Wake, C.Rearm, Life, Accepts;
  }

  lemma CancelCons(cfg: Config, s: State, h: string, ok: bool)
    ensures C.CancelJob(cfg, s, h, ok).cons == s.cons
  {
    hide JobGet, FanOut, QueueDone, Accepts;
    var j := JobGet(cfg, s, h, None);
    if j.Some? && j.value in s.jobs {
      var s1 := FanOut(s, List(s.jobClients, j.value), j.value, Fail);
      assert s1.cons == s.cons && QueueDone(s1, j.value).cons == s.cons;
    }
  }

  lemma UpdateIs(cfg: Config, s: State, c: Id, h: string, k: Kind)
    ensures var j := JobGet(cfg, s, h, Some(c));
            C.WorkUpdate(cfg, s, c, h, k) ==
              if j.None? || j.value !in s.jobs then Emit(s, Error(c))
                  else FanOut(s, List(s.jobClients, j.value), j.value, k)
  {
    hide JobGet, FanOut, Emit, Accepts;
  }

  lemma UpdateCons(cfg: Config, s: State, c: Id, h: string, k: Kind)
    ensures C.WorkUpdate(cfg, s, c, h, k).cons == s.cons
  {
    hide C.WorkUpdate, JobGet, FanOut, Accepts;
    UpdateIs(cfg, s, c, h, k);
  }

  lemma CanDoCons(s: State, c: Id, f: Name, timeout: int)
    ensures AddWorker(s, c, f, timeout).cons == s.cons
  {
    hide EnsureFn;
  }

  lemma QuietLife(cfg: Config, s: State, e: C.Event)
    requires C.Enabled(cfg, s, e)
               && (e.CanDo? || e.Cancel? || e.EpochTimer? || e.MaxQueue? || e.Replay? || e.Update? || e.Tick?)
    ensures Life(C.Step(cfg, s, e).cons) == Life(s.cons)
  {
    hide JobAdd, C.EpochFire, C.CancelJob, C.WorkUpdate, AddWorker, Truncate, CString, Life, Accepts, TakeHangs,
         PeekHangs, C.SubmitJob, C.GrabJob, C.Sleep, C.WorkResult, C.CleanUp, FreeWorkers, JobQueue, Registered;
    match e
    case CanDo(c, f, t) => CanDoCons(s, c, f, t);
    case Cancel(h, ok) => CancelCons(cfg, s, h, ok);
    case Update(c, h, k) => UpdateCons(cfg, s, c, h, k);
    case EpochTimer(f) => EpochLife(cfg, s, f);
    case Replay(f, u, d, p, when) => JobAddLife(cfg, s, f, u, d, p, when, Replayed);
    case _ =>
  }

  /** Only the coming and going of connections changes their life. */
  lemma StepLife(cfg: Config, s: State, x: Phase, e: C.Event)
    requires Inv(cfg, s, x) && Steady(x) && C.Enabled(cfg, s, e) && !Lifecycle(e)
    ensures Life(C.Step(cfg, s, e).cons) == Life(s.cons)
  {
    hide Inv, JobAdd, C.SubmitJob, C.GrabJob, C.Sleep, C.WorkResult, C.WorkUpdate, C.CancelJob, C.EpochFire,
         FreeWorkers, Registered, JobQueue,
         AddWorker, TakeHangs, PeekHangs, Truncate, CString, Life;
    match e
    case Submit(c, f, u, d, p, when, origin) => SubmitLife(cfg, s, c, f, u, d, p, when, origin);
    case Grab(c, ok) => GrabLife(cfg, s, x, c, ok);
    case PreSleep(c) => SleepLife(cfg, s, c);
    case Result(c, h, k, ok) => ResultLife(cfg, s, c, h, k, ok);
    case Exceptions(c) => KeepLife(s.cons, c, s.cons[c].(exceptions := true));
    case JobTimeout(c) => TimeoutLife(cfg, s, x, c, s.cons[c].timer.value);
    case _ =>
      if e.CantDo? || e.ResetAbilities? {
        WeakenInv(cfg, s, x, x.(timed := false));
        ReleaseLife(cfg, s, x.(timed := false), e);
      } else {
        QuietLife(cfg, s, e);
      }
  }

  lemma SubmitLife(cfg: Config, s: State, c: Id, f: Name, u: string, d: string, p: Priority, when: int, origin: Origin)
    ensures Life(C.SubmitJob(cfg, s, c, f, u, d, p, when, origin).cons) == Life(s.cons)
  {
    hide JobAdd, AddClient, Life, Accepts;
    JobAddLife(cfg, s, f, u, d, p, when, origin);
    var (s1, r) := JobAdd(cfg, s, f, u, d, p, when, origin);
    var t := C.SubmitJob(cfg, s, c, f, u, d, p, when, origin);
    if |u| > MAX_UNIQUE_SIZE { assert t.cons == s.cons; }
    else if r.Full? || r.StoreFailed? { assert t.cons == s1.cons; }
    else { assert t.cons == s1.cons; }
  }

  // Both together

  lemma CleanUpLife(cfg: Config, s: State, x: Phase, c: Id)
    requires Inv(cfg, s, x) && Steady(x) && c in s.cons && s.cons[c].dead
    ensures Life(C.CleanUp(cfg, s, c).cons) == Life(s.cons)[c := (true, true)]
  {
    hide Inv, FreeWorkers, FreeClients, Accepts, Life, Apart;
    assert Apart(s, c, List(s.conWorkers, c)) by { DeadApart(s, c, List(s.conWorkers, c)); }
    ResetInv(cfg, s, x, c);
    var s1 := FreeWorkers(cfg, s, List(s.conWorkers, c));
    StillDead(s, s1, c);
    SetLife(s1.cons, c, s1.cons[c].(removed := true));
  }

  lemma DeadApart(s: State, c: Id, ws: seq<Id>)
    requires c in s.cons && s.cons[c].dead
    ensures Apart(s, c, ws)
  {}

  lemma DropLife(cons: map<Id, Con>, c: Id)
    ensures Life(cons - {c}) == Life(cons) - {c}
  {}

  /** How the coming and going of a connection changes its life in the scheduler. */
  lemma LifecycleLife(cfg: Config, s: State, x: Phase, e: C.Event)
    requires Inv(cfg, s, x) && Steady(x) && C.Enabled(cfg, s, e) && Lifecycle(e)
    ensures Life(C.Step(cfg, s, e).cons) ==
              match e
              case Connect(c) => Life(s.cons)[c := (false, false)]
              case Disconnect(c) => Life(s.cons)[c := (true, s.cons[c].removed)]
              case Cleanup(c) => Life(s.cons)[c := (true, true)]
              case Destroy(c) => Life(s.cons) - {c}
  {
    hide Inv, C.CleanUp, Life, TakeHangs, PeekHangs;
    match e
    case Connect(c) => SetLife(s.cons, c, C.NewCon.(exceptions := cfg.exceptions));
    case Disconnect(c) =>
      SetLife(s.cons, c, s.cons[c].(dead := true, timer := None, sleeping := false, noopSent := false,
          exceptions := cfg.exceptions));
    case Cleanup(c) => CleanUpLife(cfg, s, x, c);
    case Destroy(c) => DropLife(s.cons, c);
  }

  lemma ServerInv(cfg: Config, b: Both, x: Phase, e: C.Event)
    requires JointInv(cfg, b, x) && Possible(cfg, b, x, Server(e))
    ensures JointInv(cfg, Both(b.threads, C.Step(cfg, b.state, e)), x)
  {
    hide Inv, P.Inv, C.Step, C.Enabled, Allowed, Life;
    StepInv(cfg, b.state, x, e);
    StepLife(cfg, b.state, x, e);
  }

  lemma SetLives(cons: map<Id, T.Flags>, c: Id, f: T.Flags)
    requires c in cons && f.dead == cons[c].dead && f.removed == cons[c].removed
    ensures T.Lives(cons[c := f]) == T.Lives(cons)
  {}

  lemma NewLives(cons: map<Id, T.Flags>, c: Id, f: T.Flags)
    ensures T.Lives(cons[c := f]) == T.Lives(cons)[c := (f.dead, f.removed)]
  {}

  lemma DeadLives(cons: map<Id, T.Flags>, c: Id)
    requires c in cons && cons[c].dead
    ensures T.Lives(cons)[c := (true, cons[c].removed)] == T.Lives(cons)
  {}

  /** What a step of a thread does to the life of connections, with what it brings. */
  lemma ThreadLife(w: T.World, a: T.Act)
    requires P.Inv(w) && T.Enabled(w, a)
    ensures T.Lives(T.Step(w, a).cons) ==
              match Brings(w, a)
              case Some(Connect(c)) => T.Lives(w.cons)[c := (false, false)]
              case Some(Disconnect(c)) => if c in w.cons then T.Lives(w.cons)[c := (true, w.cons[c].removed)]
                  else T.Lives(w.cons)
              case Some(Cleanup(c)) => T.Lives(w.cons)[c := (true, true)]
              case Some(Destroy(c)) => T.Lives(w.cons) - {c}
              case _ => T.Lives(w.cons)
  {
    hide P.Inv, P.QueuesOk, P.WakeOk, T.IoNext, T.ProcNext, T.IoAdd, T.Lives;
    match a
    case Connect(t, c) => NewLives(w.cons, c, T.Flags(t, true, false, false, false, false, false, 0));
    case Hangup(t, c) => SetLives(w.cons, c, w.cons[c].(attached := false));
    case Next(t) =>
      P.Here(w, t);
      if w.io[t].Die? {
        P.Con(w, w.io[t].con);
        if w.cons[w.io[t].con].dead { DeadLives(w.cons, w.io[t].con); }
      }
    case Proc => P.There(w);
    case _ =>
  }

  /** A step of a thread, with what it is for the scheduler. */
  lemma ThreadInv(cfg: Config, b: Both, x: Phase, a: T.Act)
    requires JointInv(cfg, b, x) && T.Enabled(b.threads, a)
    ensures var e := Brings(b.threads, a); e.Some? ==> C.Enabled(cfg, b.state, e.value)
    ensures JointInv(cfg, Act(cfg, b, a), x)
  {
    hide Inv, P.Inv, C.Step, C.Enabled, T.Step, Allowed, Life, T.Lives;
    Ready(cfg, b, x, a);
    P.StepInv(b.threads, a);
    ThreadLife(b.threads, a);
    var e := Brings(b.threads, a);
    if e.Some? {
      StepInv(cfg, b.state, x, e.value);
      LifecycleLife(cfg, b.state, x, e.value);
      if e.value.Disconnect? { Match(cfg, b, e.value); }
    }
  }

  /** The two sides of what a thread brings. */
  lemma Match(cfg: Config, b: Both, e: C.Event)
    requires Agree(b) && C.Enabled(cfg, b.state, e) && e.Disconnect?
    ensures e.con in b.threads.cons && b.state.cons[e.con].removed == b.threads.cons[e.con].removed
  {
    Same(b, e.con);
  }

  // Runs

  /** One step of the whole server. */
  function Next(cfg: Config, b: Both, m: Move): Both
    requires match m case Thread(a) => T.Enabled(b.threads, a) case Server(e) => C.Enabled(cfg, b.state, e)
    requires m.Thread? ==> var e := Brings(b.threads, m.act); e.Some? ==> C.Enabled(cfg, b.state, e.value)
  {
    match m
    case Thread(a) => Act(cfg, b, a)
    case Server(e) => Both(b.threads, C.Step(cfg, b.state, e))
  }

  lemma NextInv(cfg: Config, b: Both, x: Phase, m: Move)
    requires JointInv(cfg, b, x) && Possible(cfg, b, x, m)
    ensures m.Thread? ==> var e := Brings(b.threads, m.act); e.Some? ==> C.Enabled(cfg, b.state, e.value)
    ensures JointInv(cfg, Next(cfg, b, m), x)
  {
    hide JointInv, Act, C.Step, C.Enabled;
    match m
    case Thread(a) => ThreadInv(cfg, b, x, a);
    case Server(e) => ServerInv(cfg, b, x, e);
  }

  /** The states of a run: each follows from the one before by a step that is possible there. */
  ghost predicate Trace(cfg: Config, x: Phase, bs: seq<Both>, ms: seq<Move>)
  {
    && |bs| == |ms| + 1
    && forall i :: 0 <= i < |ms| ==> Follows(cfg, x, bs[i], ms[i], bs[i + 1])
  }

  ghost predicate Follows(cfg: Config, x: Phase, b: Both, m: Move, b': Both) {
    && Possible(cfg, b, x, m)
    && (m.Thread? ==> var e := Brings(b.threads, m.act); e.Some? ==> C.Enabled(cfg, b.state, e.value))
    && b' == Next(cfg, b, m)
  }

  lemma {:induction false} TraceInv(cfg: Config, x: Phase, bs: seq<Both>, ms: seq<Move>, i: nat)
    requires Trace(cfg, x, bs, ms) && i <= |ms| && JointInv(cfg, bs[0], x)
    ensures JointInv(cfg, bs[i], x)
  {
    hide JointInv, Follows;
    if i > 0 {
      TraceInv(cfg, x, bs, ms, i - 1);
      FollowInv(cfg, x, bs[i - 1], ms[i - 1], bs[i]);
    }
  }

  lemma FollowInv(cfg: Config, x: Phase, b: Both, m: Move, b': Both)
    requires JointInv(cfg, b, x) && Follows(cfg, x, b, m, b')
    ensures JointInv(cfg, b', x)
  {
    hide JointInv, Next;
    NextInv(cfg, b, x, m);
  }

  lemma StartInv(cfg: Config, x: Phase, n: nat, store: set<Key>, now: int)
    requires Steady(x) && cfg.jobRetries <= 255 && (x.watched ==> cfg.workerWakeup == 0 && now >= 0)
    ensures JointInv(cfg, Both(T.Start(n), C.Init(store, now)), x)
  {
    P.StartInv(n);
    InitInv(cfg, x, store, now);
    hide Inv, P.Inv;
    assert Life(map[]) == T.Lives(map[]);
  }

  /** In every run of the threads with the scheduler: when a connection is destroyed, no worker, no
      client and no running job refers to it. */
  lemma DestroyedUnreferenced(cfg: Config, b: Both, x: Phase, a: T.Act, c: Id)
    requires JointInv(cfg, b, x) && T.Enabled(b.threads, a) && c in b.threads.cons && c !in T.Step(b.threads, a).cons
    ensures c in b.state.cons && b.state.cons[c].removed && b.state.cons[c].dead
    ensures forall w :: w in b.state.workers ==> b.state.workers[w].con != c
    ensures forall cl :: cl in b.state.clients ==> b.state.clients[cl].con != c
    ensures forall j :: !RunsOn(b.state, j, c)
  {
    hide Inv, P.Inv, T.Step, Agree;
    P.OnlyGone(b.threads, a, c);
    P.Destroyable(b.threads, a.t, c);
    Same(b, c);
    RemovedAlone(cfg, b.state, x, c);
  }

  /** The same over whole runs: in whatever order the threads and the scheduler take their steps, a
      connection that a step destroys was dead and cleaned up, and nothing refers to it before or after. */
  lemma RunDestroys(cfg: Config, x: Phase, n: nat, store: set<Key>, now: int, bs: seq<Both>, ms: seq<Move>, i: nat,
      c: Id)
    requires Steady(x) && cfg.jobRetries <= 255 && (x.watched ==> cfg.workerWakeup == 0 && now >= 0)
    requires Trace(cfg, x, bs, ms) && bs[0] == Both(T.Start(n), C.Init(store, now))
    requires i < |ms| && c in bs[i].threads.cons && c !in bs[i + 1].threads.cons
    ensures Unused(bs[i].state, c) && Unused(bs[i + 1].state, c)
    ensures c in bs[i].state.cons && bs[i].state.cons[c].dead && bs[i].state.cons[c].removed
              && c !in bs[i + 1].state.cons
  {
    hide JointInv, C.Init, T.Start, Unused;
    assert Follows(cfg, x, bs[i], ms[i], bs[i + 1]);
    StartInv(cfg, x, n, store, now);
    TraceInv(cfg, x, bs, ms, i);
    StepDestroys(cfg, x, bs[i], ms[i], bs[i + 1], c);
  }

  lemma StepDestroys(cfg: Config, x: Phase, b: Both, m: Move, b': Both, c: Id)
    requires JointInv(cfg, b, x) && Follows(cfg, x, b, m, b') && c in b.threads.cons && c !in b'.threads.cons
    ensures Unused(b.state, c) && Unused(b'.state, c)
    ensures c in b.state.cons && b.state.cons[c].dead && b.state.cons[c].removed && c !in b'.state.cons
  {
    hide JointInv, T.Step, C.Step, Allowed;
    DestroyedUnreferenced(cfg, b, x, m.act, c);
    P.OnlyGone(b.threads, m.act, c);
    DestroyStep(cfg, b.state, c);
  }

  lemma DestroyStep(cfg: Config, s: State, c: Id)
    requires C.Enabled(cfg, s, C.Destroy(c))
    ensures C.Step(cfg, s, C.Destroy(c)) == s.(cons := s.cons - {c})
  {
  }

  lemma RemovedAlone(cfg: Config, s: State, x: Phase, c: Id)
    requires Inv(cfg, s, x) && c in s.cons && s.cons[c].removed
    ensures s.cons[c].dead
    ensures forall w :: w in s.workers ==> s.workers[w].con != c
    ensures forall cl :: cl in s.clients ==> s.clients[cl].con != c
  {
    hide ListsOk, CountsOk, JobRefs, RunRefs;
  }

  /** Whoever the scheduler still knows can be sent to: the connection of a worker or a client exists
      and was not cleaned up. */
  lemma KnownAreReachable(cfg: Config, b: Both, x: Phase, c: Id)
    requires JointInv(cfg, b, x)
    requires (exists w :: w in b.state.workers && b.state.workers[w].con == c)
               || (exists cl :: cl in b.state.clients && b.state.clients[cl].con == c)
    ensures T.Enabled(b.threads, T.Send(c))
  {
    hide Inv, P.Inv, Agree;
    KnownLive(cfg, b.state, x, c);
    Same(b, c);
  }

  lemma KnownLive(cfg: Config, s: State, x: Phase, c: Id)
    requires Inv(cfg, s, x)
    requires (exists w :: w in s.workers && s.workers[w].con == c)
               || (exists cl :: cl in s.clients && s.clients[cl].con == c)
    ensures c in s.cons && !s.cons[c].removed
  {
    hide ListsOk, CountsOk, JobRefs, RunRefs;
  }
}
