/** A connection that was sent a NOOP: until it asks for a job, no other NOOP reaches it, not even when it
    goes to sleep again. */
module Naps {
  import opened Seqs
  import opened Ownership
  import opened Scheduler
  import opened Selection
  import opened Commands
  import opened Tables
  import opened Uniques
  import opened Retries
  import opened Traces
  import opened Timers
  import opened Wakeups
  import opened Invariant
  import opened Notices
  import opened Taking

  /** How many NOOPs went to connection `c`. */
  function Noops(out: seq<Output>, c: Id): nat {
    if out == [] then 0 else
    var n := |out| - 1;
    Noops(out[..n], c) + if out[n] == Noop(c) then 1 else 0
  }

  lemma NoopsEmit(out: seq<Output>, o: Output, c: Id)
    ensures Noops(out + [o], c) == Noops(out, c) + if o == Noop(c) then 1 else 0
  {
    assert (out + [o])[..|out|] == out;
  }

  /** A connection that was sent a NOOP is sent none between `s` and `t`, and still counts as told. */
  ghost predicate Deaf(s: State, t: State, c: Id) {
    c in s.cons && s.cons[c].noopSent ==>
      && c in t.cons && t.cons[c].noopSent && (s.cons[c].sleeping ==> t.cons[c].sleeping)
      && Noops(t.out, c) == Noops(s.out, c)
  }

  /** Nothing about the sleep of `c` changes between `s` and `t`. */
  ghost predicate Same(s: State, t: State, c: Id) {
    && (c in s.cons ==> c in t.cons && t.cons[c].noopSent == s.cons[c].noopSent
                          && t.cons[c].sleeping == s.cons[c].sleeping)
    && t.out == s.out
  }

  lemma DeafEmit(s: State, o: Output, c: Id)
    requires o != Noop(c)
    ensures Deaf(s, Emit(s, o), c)
  {
    hide Noops;
    NoopsEmit(s.out, o, c);
  }

  lemma {:induction false} FanOutDeaf(s: State, cls: seq<Id>, j: Id, kind: Kind, c: Id)
    ensures Deaf(s, FanOut(s, cls, j, kind), c)
    decreases |cls|
  {
    hide Noops, Accepts;
    if cls != [] {
      DeafEmit(s, Packet(s, cls[0], j, kind), c);
      FanOutDeaf(Emit(s, Packet(s, cls[0], j, kind)), cls[1..], j, kind, c);
    }
  }

  // The NOOP loop

  lemma WakeOneDeaf(s: State, w: Id, c: Id)
    ensures Deaf(s, WakeOne(s, w), c)
  {
    hide Noops, Accepts, Life;
    if Wakeable(s, w) { NoopsEmit(s.out, Noop(s.workers[w].con), c); }
  }

  lemma {:induction false} WakeLoopDeaf(s: State, ws: seq<Id>, limit: nat, sent: nat, c: Id)
    ensures Deaf(s, WakeLoop(s, ws, limit, sent).0, c)
    decreases |ws|
  {
    hide Noops, WakeOne, Wakeable, Accepts, Life;
    if ws != [] {
      WakeOneDeaf(s, ws[0], c);
      WakeLoopDeaf(WakeOne(s, ws[0]), ws[1..], limit, if Wakeable(s, ws[0]) then sent + 1 else sent, c);
    }
  }

  lemma WakeDeaf(s: State, f: Name, limit: nat, c: Id)
    ensures Deaf(s, Wake(s, f, limit), c)
  {
    hide Noops, WakeLoop, Accepts, Life;
    WakeLoopDeaf(s, List(s.fnWorkers, f), limit, 0, c);
  }

  lemma EnqueueDeaf(cfg: Config, s: State, j: Id, c: Id)
    ensures Deaf(s, Enqueue(cfg, s, j), c)
  {
    hide Noops, Wake, Append, Accepts, Life;
    if j in s.jobs { WakeDeaf(s, s.jobs[j].spec.fn, cfg.workerWakeup, c); }
  }

  // Jobs

  lemma FreeJobSame(cfg: Config, s: State, j: Id, c: Id)
    ensures Same(s, FreeJob(cfg, s, j), c)
  {
    hide FreeClients, Detach, Unlink, Life;
  }

  lemma DropDeaf(cfg: Config, s: State, j: Id, c: Id)
    ensures Deaf(s, Drop(cfg, s, j), c)
  {
    hide Noops, FanOut, QueueDone, FreeJob, Accepts;
    var s1 := FanOut(s, List(s.jobClients, j), j, Fail);
    FanOutDeaf(s, List(s.jobClients, j), j, Fail, c);
    FreeJobSame(cfg, QueueDone(s1, j), j, c);
  }

  lemma JobQueueDeaf(cfg: Config, s: State, j: Id, c: Id)
    ensures Deaf(s, JobQueue(cfg, s, j), c)
  {
    hide Noops, Drop, Enqueue, Detach, Again, Exhausted, Retried;
    EnqueueDeaf(cfg, s, j, c);
    if j in s.jobs {
      var t := Retried(s, j);
      DropDeaf(cfg, t, j, c);
      EnqueueDeaf(cfg, Detach(t, j), j, c);
    }
  }

  lemma JobAddDeaf(cfg: Config, s: State, f: Name, u: string, d: string, p: Priority, when: int, origin: Origin, c: Id)
    ensures Deaf(s, JobAdd(cfg, s, f, u, d, p, when, origin).0, c)
  {
    hide Noops, EnsureFn, FindEqual, Limited, NewJob, FreeJob, Record, Enqueue;
    var s0 := EnsureFn(s, f);
    var s1 := Create(cfg, s0, NewJob(cfg, s0.nextJob, f, u, d, p, when));
    FreeJobSame(cfg, s1, s0.nextJob, c);
    EnqueueDeaf(cfg, Record(s1, s0.nextJob, origin), s0.nextJob, c);
  }

  // Workers

  lemma {:induction false} RequeueDeaf(cfg: Config, s: State, js: seq<Id>, c: Id)
    ensures Deaf(s, RequeueAll(cfg, s, js), c)
    decreases |js|
  {
    hide Noops, JobQueue;
    if js != [] {
      JobQueueDeaf(cfg, s, js[0], c);
      RequeueDeaf(cfg, JobQueue(cfg, s, js[0]), js[1..], c);
    }
  }

  lemma {:induction false} FreeWorkersDeaf(cfg: Config, s: State, ws: seq<Id>, c: Id)
    ensures Deaf(s, FreeWorkers(cfg, s, ws), c)
    decreases |ws|
  {
    hide Noops, RequeueAll;
    if ws != [] {
      RequeueDeaf(cfg, s, List(s.running, ws[0]), c);
      FreeWorkersDeaf(cfg, FreeWorker(cfg, s, ws[0]), ws[1..], c);
    }
  }

  // The search for a job

  lemma {:induction false} TakeSame(cfg: Config, s: State, b: Id, c: Id)
    ensures Same(s, Take(cfg, s, b).0, c)
    decreases |s.jobs|
  {
    hide Pick, FreeJob;
    var (s1, j) := Pick(cfg, s, b, PRIORITIES);
    if j.Some? && s1.jobs[j.value].ignore && s1.jobs[j.value].spec.fn in s1.fns {
      FreeJobSame(cfg, s1, j.value, c);
      FreeJobKeys(cfg, s1, j.value);
      Shrinks(s, FreeJob(cfg, s1, j.value), j.value);
      TakeSame(cfg, FreeJob(cfg, s1, j.value), b, c);
    }
  }

  lemma {:induction false} PeekSame(cfg: Config, s: State, b: Id, c: Id)
    ensures Same(s, Peek(cfg, s, b).0, c)
    decreases |s.jobs|
  {
    hide Look, Take, FreeJob;
    var j := Look(s, List(s.conWorkers, b));
    if j.Some? && j.value in s.jobs && s.jobs[j.value].ignore {
      var s0 := SetJob(s, j.value, s.jobs[j.value].(ignore := false));
      var (s1, t) := Take(cfg, s0, b);
      TakeSame(cfg, s0, b, c);
      if t.Some? && s1.jobs[t.value].spec.fn in s1.fns {
        FreeJobSame(cfg, s1, t.value, c);
        FreeJobKeys(cfg, s1, t.value);
        Shrinks(s, FreeJob(cfg, s1, t.value), t.value);
        PeekSame(cfg, FreeJob(cfg, s1, t.value), b, c);
      }
    }
  }

  lemma SetDeaf(s: State, b: Id, con: Con, c: Id)
    requires b == c && c in s.cons ==> con.noopSent == s.cons[c].noopSent && (s.cons[c].sleeping ==> con.sleeping)
    ensures Deaf(s, SetCon(s, b, con), c)
  {
    hide Noops;
  }

  lemma Then(s: State, s1: State, t: State, c: Id)
    requires Deaf(s, s1, c) && Deaf(s1, t, c)
    ensures Deaf(s, t, c)
  {
    hide Noops;
  }

  lemma SameDeaf(s: State, t: State, c: Id)
    requires Same(s, t, c)
    ensures Deaf(s, t, c)
  {
    hide Noops;
  }

  lemma SleepDeaf(cfg: Config, s: State, b: Id, c: Id)
    requires b != c || Peek(cfg, s, b).1.None?
    ensures Deaf(s, Sleep(cfg, s, b), c)
  {
    hide Peek, Deaf, Same;
    var (s1, j) := Peek(cfg, s, b);
    var t := Sleep(cfg, s, b);
    PeekSame(cfg, s, b, c);
    SameDeaf(s, s1, c);
    if j.Some? {
      assert t == Emit(s1, Noop(b));
      DeafEmit(s1, Noop(b), c);
      Then(s, s1, t, c);
    } else if b in s1.cons {
      assert t == SetCon(s1, b, s1.cons[b].(sleeping := true, timer := None));
      SetDeaf(s1, b, s1.cons[b].(sleeping := true, timer := None), c);
      Then(s, s1, t, c);
    }
  }

  lemma ArmDeaf(s: State, b: Id, j: Id, c: Id)
    ensures Deaf(s, ArmTimer(s, b, j), c)
  {
    hide Noops, Registered;
  }

  lemma GrabDeaf(cfg: Config, s: State, b: Id, ok: bool, c: Id)
    requires b != c && b in s.cons
    ensures Deaf(s, GrabJob(cfg, s, b, ok), c)
  {
    hide Take, JobQueue, ArmTimer, Deaf, Same;
    var s0 := SetCon(s, b, s.cons[b].(sleeping := false, noopSent := false));
    SetDeaf(s, b, s.cons[b].(sleeping := false, noopSent := false), c);
    TakeSame(cfg, s0, b, c);
    var (s1, j) := Take(cfg, s0, b);
    SameDeaf(s0, s1, c);
    Then(s, s0, s1, c);
    GrabEnds(cfg, s1, b, j, ok, c);
    assert Awake(s, b) == s0;
    Then(s, s1, GrabJob(cfg, s, b, ok), c);
  }

  lemma GrabEnds(cfg: Config, s: State, b: Id, j: Option<Id>, ok: bool, c: Id)
    ensures Deaf(s, if j.None? then Emit(s, NoJob(b)) else if ok then ArmTimer(Emit(s, Assign(b, j.value)), b, j.value)
        else JobQueue(cfg, s, j.value), c)
  {
    hide JobQueue, ArmTimer, Deaf;
    DeafEmit(s, NoJob(b), c);
    if j.Some? {
      JobQueueDeaf(cfg, s, j.value, c);
      var t := Emit(s, Assign(b, j.value));
      DeafEmit(s, Assign(b, j.value), c);
      ArmDeaf(t, b, j.value, c);
      Then(s, t, ArmTimer(t, b, j.value), c);
    }
  }

  // The other commands

  lemma SubmitDeaf(cfg: Config, s: State, b: Id, f: Name, u: string, d: string, p: Priority, when: int, origin: Origin,
      c: Id)
    ensures Deaf(s, SubmitJob(cfg, s, b, f, u, d, p, when, origin), c)
  {
    hide Noops, JobAdd, AddClient;
    DeafEmit(s, Error(b), c);
    JobAddDeaf(cfg, s, f, u, d, p, when, origin, c);
    var (s1, r) := JobAdd(cfg, s, f, u, d, p, when, origin);
    DeafEmit(s1, Error(b), c);
    if !(r.Full? || r.StoreFailed?) {
      DeafEmit(if origin.Foreground? then AddClient(s1, b, r.job) else s1, Created(b, r.job), c);
    }
  }

  lemma ResultDeaf(cfg: Config, s: State, b: Id, h: string, k: Kind, ok: bool, c: Id)
    ensures Deaf(s, WorkResult(cfg, s, b, h, k, ok), c)
  {
    hide Noops, JobGet, FanOut, QueueDone, FreeJob, Accepts;
    DeafEmit(s, Error(b), c);
    var j := JobGet(cfg, s, h, Some(b));
    if j.Some? {
      DeafEmit(s, Accepted(b, j.value), c);
      var s0 := Emit(s, Accepted(b, j.value));
      FanOutDeaf(s0, List(s.jobClients, j.value), j.value, k, c);
      FreeJobSame(cfg, QueueDone(FanOut(s0, List(s.jobClients, j.value), j.value, k), j.value), j.value, c);
    }
  }

  lemma UpdateDeaf(cfg: Config, s: State, b: Id, h: string, k: Kind, c: Id)
    ensures Deaf(s, WorkUpdate(cfg, s, b, h, k), c)
  {
    hide Deaf, JobGet, FanOut, Accepts;
    DeafEmit(s, Error(b), c);
    var j := JobGet(cfg, s, h, Some(b));
    if j.Some? { FanOutDeaf(s, List(s.jobClients, j.value), j.value, k, c); }
  }

  lemma CancelDeaf(cfg: Config, s: State, h: string, ok: bool, c: Id)
    ensures Deaf(s, CancelJob(cfg, s, h, ok), c)
  {
    hide Deaf, JobGet, FanOut, QueueDone, Accepts;
    var j := JobGet(cfg, s, h, None);
    if j.None? || j.value !in s.jobs {
      RestDeaf(s, s, c);
    } else {
      var s1 := FanOut(s, List(s.jobClients, j.value), j.value, Fail);
      FanOutDeaf(s, List(s.jobClients, j.value), j.value, Fail, c);
      RestDeaf(s1, CancelJob(cfg, s, h, ok), c);
      Then(s, s1, CancelJob(cfg, s, h, ok), c);
    }
  }

  lemma EpochDeaf(cfg: Config, s: State, f: Name, c: Id)
    ensures Deaf(s, EpochFire(cfg, s, f), c)
  {
    hide Noops, Wake, Rearm, Life, Accepts;
    if f in s.fns { WakeDeaf(SetFn(s, f, s.fns[f].(timer := None)), f, cfg.workerWakeup, c); }
  }

  lemma CleanUpDeaf(cfg: Config, s: State, b: Id, c: Id)
    ensures Deaf(s, CleanUp(cfg, s, b), c)
  {
    hide Noops, FreeWorkers, FreeClients;
    FreeWorkersDeaf(cfg, s, List(s.conWorkers, b), c);
  }

  /** The events that end the deafness of a connection: it asks for a job, is told at once that there
      is one, or goes. */
  predicate Stirs(cfg: Config, s: State, e: Event, c: Id) {
    match e
    case Grab(b, _) => b == c
    case PreSleep(b) => b == c && Peek(cfg, s, b).1.Some?
    case Disconnect(b) => b == c
    case Destroy(b) => b == c
    case _ => false
  }

  lemma RestDeaf(s: State, t: State, c: Id)
    requires t.out == s.out && (c in s.cons ==> c in t.cons && t.cons[c] == s.cons[c])
    ensures Deaf(s, t, c)
  {
    hide Noops;
  }

  lemma PlainDeaf(cfg: Config, s: State, e: Event, c: Id)
    requires Enabled(cfg, s, e) && !Stirs(cfg, s, e, c)
    requires e.Connect? || e.Disconnect? || e.Destroy? || e.Exceptions? || e.MaxQueue? || e.Tick?
    ensures Deaf(s, Step(cfg, s, e), c)
  {
    hide Deaf, Same, JobAdd, SubmitJob, GrabJob, Sleep, WorkResult, WorkUpdate, CancelJob, EpochFire, CleanUp,
         FreeWorkers, Registered, JobQueue, AddWorker, TakeHangs, PeekHangs, Truncate, CString;
    match e
    case Connect(b) => SetDeaf(s, b, NewCon.(exceptions := cfg.exceptions), c);
    case Disconnect(b) =>
      SetDeaf(s, b, s.cons[b].(dead := true, timer := None, sleeping := false, noopSent := false,
          exceptions := cfg.exceptions), c);
    case Exceptions(b) => SetDeaf(s, b, s.cons[b].(exceptions := true), c);
    case Destroy(b) => RestDeaf(s, s.(cons := s.cons - {b}), c);
    case MaxQueue(f, limits) => if f in s.fns { RestDeaf(s, SetFn(s, f, s.fns[f].(maxQueue := limits)), c); }
      else { RestDeaf(s, s, c); }
    case Tick(now) => RestDeaf(s, s.(clock := now), c);
  }

  lemma TimeoutDeaf(cfg: Config, s: State, b: Id, c: Id)
    requires b in s.cons && s.cons[b].timer.Some?
    ensures Deaf(s, JobQueue(cfg, SetCon(s, b, s.cons[b].(timer := None)), s.cons[b].timer.value), c)
  {
    hide JobQueue, Deaf;
    var t := SetCon(s, b, s.cons[b].(timer := None));
    SetDeaf(s, b, s.cons[b].(timer := None), c);
    JobQueueDeaf(cfg, t, s.cons[b].timer.value, c);
    Then(s, t, JobQueue(cfg, t, s.cons[b].timer.value), c);
  }

  lemma StepDeaf(cfg: Config, s: State, e: Event, c: Id)
    requires Enabled(cfg, s, e) && !Stirs(cfg, s, e, c)
    ensures Deaf(s, Step(cfg, s, e), c)
  {
    hide Deaf, JobAdd, SubmitJob, GrabJob, Sleep, WorkResult, WorkUpdate, CancelJob, EpochFire, CleanUp, FreeWorkers,
         Registered, JobQueue, AddWorker, TakeHangs, PeekHangs, Truncate, CString, Peek;
    match e
    case Cleanup(b) => CleanUpDeaf(cfg, s, b, c);
    case CanDo(b, f, t) => AddedDeaf(s, b, f, t, c);
    case CantDo(b, f) => FreeWorkersDeaf(cfg, s, Registered(s, b, f), c);
    case ResetAbilities(b) => FreeWorkersDeaf(cfg, s, List(s.conWorkers, b), c);
    case Submit(b, f, u, d, p, when, origin) => SubmitDeaf(cfg, s, b, f, u, d, p, when, origin, c);
    case Replay(f, u, d, p, when) => JobAddDeaf(cfg, s, f, u, d, p, when, Replayed, c);
    case Grab(b, ok) => GrabDeaf(cfg, s, b, ok, c);
    case PreSleep(b) => SleepDeaf(cfg, s, b, c);
    case Result(b, h, k, ok) => ResultDeaf(cfg, s, b, h, k, ok, c);
    case Update(b, h, k) => UpdateDeaf(cfg, s, b, h, k, c);
    case Cancel(h, ok) => CancelDeaf(cfg, s, h, ok, c);
    case JobTimeout(b) => TimeoutDeaf(cfg, s, b, c);
    case EpochTimer(f) => EpochDeaf(cfg, s, f, c);
    case _ => PlainDeaf(cfg, s, e, c);
  }

  lemma AddedDeaf(s: State, b: Id, f: Name, timeout: int, c: Id)
    ensures Deaf(s, AddWorker(s, b, f, timeout), c)
  {
    hide Noops, EnsureFn;
  }

  /** Nothing stirs connection `c` during a run. */
  ghost predicate Resting(cfg: Config, s: State, es: seq<Event>, c: Id)
    requires Runs(cfg, s, es)
    decreases |es|
  {
    es == [] || (!Stirs(cfg, s, es[0], c) && Resting(cfg, Step(cfg, s, es[0]), es[1..], c))
  }

  /** Whatever is queued meanwhile, and however often it goes to sleep: a connection that was sent a NOOP is
      sent no other until it asks for a job, or asks to sleep while there is one. */
  lemma {:induction false} NoSecondNoop(cfg: Config, s: State, es: seq<Event>, c: Id)
    requires Runs(cfg, s, es) && Resting(cfg, s, es, c)
    ensures Deaf(s, Run(cfg, s, es), c)
    decreases |es|
  {
    hide Noops, Step, Enabled, Stirs;
    if es != [] {
      StepDeaf(cfg, s, es[0], c);
      NoSecondNoop(cfg, Step(cfg, s, es[0]), es[1..], c);
    }
  }

  // Who is told

  /** `c` has a worker among `ws`. */
  ghost predicate Listed(s: State, ws: seq<Id>, c: Id) {
    exists w :: w in ws && w in s.workers && s.workers[w].con == c
  }

  lemma ListedRest(s: State, ws: seq<Id>, c: Id)
    requires ws != []
    ensures Listed(s, ws, c) <==> (ws[0] in s.workers && s.workers[ws[0]].con == c) || Listed(s, ws[1..], c)
  {
    assert ws == [ws[0]] + ws[1..];
  }

  lemma OneTells(s: State, w: Id, c: Id)
    ensures var t := WakeOne(s, w);
            && t.workers == s.workers
            && Noops(t.out, c) == Noops(s.out, c) + (if Wakeable(s, w) && s.workers[w].con == c then 1 else 0)
            && (Dozes(t.cons, c) <==> Dozes(s.cons, c) && !(w in s.workers && s.workers[w].con == c))
  {
    hide Noops, Accepts, Life;
    if Wakeable(s, w) { NoopsEmit(s.out, Noop(s.workers[w].con), c); }
  }

  lemma {:induction false} LoopTells(s: State, ws: seq<Id>, sent: nat, c: Id)
    ensures Noops(WakeLoop(s, ws, 0, sent).0.out, c) ==
              Noops(s.out, c) + if Dozes(s.cons, c) && Listed(s, ws, c) then 1 else 0
    decreases |ws|
  {
    hide Noops, Accepts, Life, WakeOne, Listed;
    if ws == [] {
      assert !Listed(s, ws, c) by { NoneListed(s, c); }
    } else {
      var t := WakeOne(s, ws[0]);
      OneTells(s, ws[0], c);
      LoopTells(t, ws[1..], if Wakeable(s, ws[0]) then sent + 1 else sent, c);
      ListedRest(s, ws, c);
      SameListed(s, t, ws[1..], c);
    }
  }

  lemma NoneListed(s: State, c: Id)
    ensures !Listed(s, [], c)
  {}

  lemma SameListed(s: State, t: State, ws: seq<Id>, c: Id)
    requires t.workers == s.workers
    ensures Listed(t, ws, c) <==> Listed(s, ws, c)
  {}

  /** With `worker_wakeup` 0: when a job is queued, a NOOP goes to exactly the connections that registered for its
      function, sleep, and were not sent one since they last asked for a job. */
  lemma QueueTells(cfg: Config, s: State, x: Phase, j: Id, c: Id)
    requires Inv(cfg, s, x) && cfg.workerWakeup == 0 && j in s.jobs
    ensures Noops(Enqueue(cfg, s, j).out, c) ==
              Noops(s.out, c) + if Dozes(s.cons, c) && Serves(s, c, s.jobs[j].spec.fn) then 1 else 0
  {
    hide Noops, WakeLoop, Append, ListsOk, Serves, Listed, RefsOk, CountsOk, KeysOk, Durable, RetriesOk,
         TraceOk, TimersOk, WatchOk, Dozes;
    var f := s.jobs[j].spec.fn;
    var ws := List(s.fnWorkers, f);
    LoopTells(s, ws, 0, c);
    RingOf(cfg, s, x.floating, f);
    ListedServes(s, ws, f, c);
  }

  /** The same for the epoch timer of a function. */
  lemma EpochTells(cfg: Config, s: State, x: Phase, f: Name, c: Id)
    requires Inv(cfg, s, x) && cfg.workerWakeup == 0 && Enabled(cfg, s, EpochTimer(f))
    ensures Noops(Step(cfg, s, EpochTimer(f)).out, c) ==
              Noops(s.out, c) + if Dozes(s.cons, c) && Serves(s, c, f) then 1 else 0
  {
    hide Noops, WakeLoop, Rearm, ListsOk, Serves, Listed, RefsOk, CountsOk, KeysOk, Durable, RetriesOk,
         TraceOk, TimersOk, WatchOk, Dozes, TakeHangs, PeekHangs;
    var s1, ws := SetFn(s, f, s.fns[f].(timer := None)), List(s.fnWorkers, f);
    LoopTells(s1, ws, 0, c);
    SameListed(s, s1, ws, c);
    RingOf(cfg, s, x.floating, f);
    ListedServes(s, ws, f, c);
  }

  lemma {:induction false} LoopStops(s: State, ws: seq<Id>, limit: nat, sent: nat)
    requires sent < limit
    ensures var t := WakeLoop(s, ws, limit, sent).0;
            && |s.out| <= |t.out| && sent + |t.out| - |s.out| <= limit
            && (sent + |t.out| - |s.out| < limit ==> forall c :: Listed(s, ws, c) ==> !Dozes(t.cons, c))
    decreases |ws|
  {
    hide Accepts, Life, WakeOne, Listed, Dozes;
    if ws == [] {
      forall c: Id { NoneListed(s, c); }
    } else {
      var t, u := WakeOne(s, ws[0]), WakeLoop(s, ws, limit, sent).0;
      OneSent(s, ws[0]);
      var sent' := if Wakeable(s, ws[0]) then sent + 1 else sent;
      if sent' < limit {
        LoopStops(t, ws[1..], limit, sent');
        forall c | Listed(s, ws, c) && sent + |u.out| - |s.out| < limit ensures !Dozes(u.cons, c) {
          ListedRest(s, ws, c);
          SameListed(s, t, ws[1..], c);
          OneTells(s, ws[0], c);
          WakeLoopWakes(t, ws[1..], limit, sent', c);
        }
      }
    }
  }

  lemma OneSent(s: State, w: Id)
    ensures |WakeOne(s, w).out| == |s.out| + if Wakeable(s, w) then 1 else 0
  {
    hide Accepts, Life;
  }

  /** With `worker_wakeup` N > 0 at most N NOOPs are sent when a job is queued, and fewer only when then no
      connection is left to be told. */
  lemma QueueTellsSome(cfg: Config, s: State, x: Phase, j: Id)
    requires Inv(cfg, s, x) && cfg.workerWakeup > 0 && j in s.jobs
    ensures var t := Enqueue(cfg, s, j); var n := |t.out| - |s.out|;
            && 0 <= n <= cfg.workerWakeup
            && (n < cfg.workerWakeup ==> forall c :: Serves(s, c, s.jobs[j].spec.fn) ==> !Dozes(t.cons, c))
  {
    hide WakeLoop, Append, ListsOk, Serves, Listed, RefsOk, CountsOk, KeysOk, Durable, RetriesOk,
         TraceOk, TimersOk, WatchOk, Dozes;
    var f := s.jobs[j].spec.fn;
    var ws := List(s.fnWorkers, f);
    LoopStops(s, ws, cfg.workerWakeup, 0);
    RingOf(cfg, s, x.floating, f);
    forall c: Id { ListedServes(s, ws, f, c); }
  }

  lemma ListedServes(s: State, ws: seq<Id>, f: Name, c: Id)
    requires forall w :: w in ws <==> w in s.workers && s.workers[w].fn == f
    ensures Listed(s, ws, c) <==> Serves(s, c, f)
  {}

  lemma RingOf(cfg: Config, s: State, floating: set<Id>, f: Name)
    requires ListsOk(cfg, s, floating)
    ensures forall w :: w in List(s.fnWorkers, f) <==> w in s.workers && s.workers[w].fn == f
  {
    forall w ensures w in List(s.fnWorkers, f) <==> w in s.workers && s.workers[w].fn == f {
      if w in s.workers { assert Owner(s.workers, FnOf)[w] == s.workers[w].fn; }
    }
  }

  /** PRE_SLEEP with nothing to do: the connection is one to be woken exactly when it was not sent a NOOP since it
      last asked for a job. */
  lemma SleepsDeaf(cfg: Config, s: State, c: Id)
    requires c in s.cons && Peek(cfg, s, c).1.None?
    ensures Dozes(Sleep(cfg, s, c).cons, c) <==> !s.cons[c].noopSent
  {
    hide Peek;
    PeekSame(cfg, s, c, c);
  }
}
