/** What each command does and answers, said of the state it finds and the state it leaves. */
module Answers {
  import opened Seqs
  import opened Scheduler
  import opened Tables
  import opened Uniques
  import opened Retries
  import opened Traces
  import opened Timers
  import opened Wakeups
  import opened Invariant
  import opened Notices
  import opened JobOps
  import opened Selection
  import opened Choices
  import opened Commands
  import opened Steps
  import opened Taking
  import opened Thinning
  import opened Endings
  import opened Requeues
  import opened Naps

  // Results, updates and cancels

  lemma Gets(cfg: Config, s: State, x: Phase, c: Id, h: string, j: Id)
    requires Inv(cfg, s, x) && JobGet(cfg, s, h, Some(c)) == Some(j)
    ensures j in s.jobs && s.jobs[j].spec.handle == h && RunsOn(s, j, c) && |h| < JOB_HANDLE_SIZE
    ensures s.jobs[j].spec.fn in s.fns
  {
    hide Inv, JobGet, RunsOn;
    JobGets(cfg, s, h, Some(c));
    HandleShort(cfg, s, x, h, Some(c), j);
    Floating(cfg, s, x, j);
  }

  lemma EmitHeard(s: State, o: Output, cl: Id, kind: Kind)
    ensures Heard(Emit(s, o), cl, kind) == Heard(s, cl, kind)
  {}

  /** The clients of a job hear of it, one by one and in order, after `o`. */
  lemma TellsAfter(s: State, o: Output, cls: seq<Id>, j: Id, kind: Kind)
    ensures var t := FanOut(Emit(s, o), cls, j, kind);
            Tells(s, t, |s.out| + 1, cls, j, kind) && t.out[|s.out|] == o && t == s.(out := t.out)
  {
    hide FanOut, Heard, Accepts;
    var s1, n := Emit(s, o), |s.out|;
    FanOutIs(s1, cls, j, kind);
    var t := FanOut(s1, cls, j, kind);
    assert t.out[..n + 1] == s.out + [o];
    assert t.out[n] == t.out[..n + 1][n] && t.out[..n] == t.out[..n + 1][..n];
    forall i | 0 <= i < |cls| ensures t.out[n + 1 + i] == Work(cls[i], j, Heard(s, cls[i], kind)) {
      EmitHeard(s, o, cls[i], kind);
    }
  }

  /** WORK_COMPLETE, WORK_EXCEPTION and WORK_FAIL for a job that the connection runs: the result is accepted, each
      client is told just this, and the job goes, from the persistent queue too; unless it cannot be taken out
      of that, and stays. */
  lemma ResultAnswers(cfg: Config, s: State, x: Phase, c: Id, h: string, kind: Kind, ok: bool, j: Id)
    requires Inv(cfg, s, x) && Steady(x) && Enabled(cfg, s, Result(c, h, kind, ok))
    requires JobGet(cfg, s, h, Some(c)) == Some(j)
    ensures var t, n := Step(cfg, s, Result(c, h, kind, ok)), |s.out|;
            && j in s.jobs && Tells(s, t, n + 1, List(s.jobClients, j), j, kind) && t.out[n] == Accepted(c, j)
            && if s.jobs[j].queued && !ok then t == s.(out := t.out)
               else t.jobs == s.jobs - {j} && t.runs == s.runs - {j} && t.fifo == s.fifo
                      && t.store == StoreWithout(s, j)
  {
    hide Inv, JobGet, FanOut, QueueDone, FreeJob, Tells, RunsOn, StoreWithout, TakeHangs, PeekHangs;
    WeakenInv(cfg, s, x, BARE);
    Gets(cfg, s, x, c, h, j);
    var cls := List(s.jobClients, j);
    var s1 := FanOut(Emit(s, Accepted(c, j)), cls, j, kind);
    TellsAfter(s, Accepted(c, j), cls, j, kind);
    var t := WorkResult(cfg, s, c, h, kind, ok);
    if s.jobs[j].queued && !ok {
      assert t == s1;
    } else {
      ResultFrees(cfg, s, c, j, kind);
      assert t == FreeJob(cfg, QueueDone(s1, j), j);
      SameTold(s, s1, t, |s.out| + 1, cls, j, kind);
    }
  }

  lemma SameTold(s: State, s1: State, t: State, n: nat, cls: seq<Id>, j: Id, kind: Kind)
    requires Tells(s, s1, n, cls, j, kind) && t.out == s1.out
    ensures Tells(s, t, n, cls, j, kind)
  {
    hide Heard;
  }

  lemma ResultFrees(cfg: Config, s: State, c: Id, j: Id, kind: Kind)
    requires Inv(cfg, s, BARE) && j in s.jobs && s.jobs[j].spec.fn in s.fns
    ensures var s1 := FanOut(Emit(s, Accepted(c, j)), List(s.jobClients, j), j, kind);
            var t := FreeJob(cfg, QueueDone(s1, j), j);
            && t.jobs == s.jobs - {j} && t.runs == s.runs - {j} && t.fifo == s.fifo && t.store == StoreWithout(s, j)
            && t.out == s1.out
  {
    hide Inv, FanOut, QueueDone, FreeJob, Accepts;
    var s0 := Emit(s, Accepted(c, j));
    var s1, y := FanOut(s0, List(s.jobClients, j), j, kind), BARE.(spent := {j});
    AcceptedInv(cfg, s, BARE, c, j);
    UntracedInv(cfg, s0, y, List(s.jobClients, j), j, kind);
    QueueDoneInv(cfg, s1, y, j);
    DoneIs(s1, j);
    FreeJobOnly(cfg, QueueDone(s1, j), y, j);
    FreeJobKeepsStore(cfg, QueueDone(s1, j), j);
    SameStore(s, s1, j);
  }

  /** WORK_DATA, WORK_WARNING and WORK_STATUS for a job that the connection runs: each client is told, and nothing
      else happens. */
  lemma UpdateAnswers(cfg: Config, s: State, x: Phase, c: Id, h: string, kind: Kind, j: Id)
    requires Inv(cfg, s, x) && Enabled(cfg, s, Update(c, h, kind)) && JobGet(cfg, s, h, Some(c)) == Some(j)
    ensures var t := Step(cfg, s, Update(c, h, kind));
            Tells(s, t, |s.out|, List(s.jobClients, j), j, kind) && t == s.(out := t.out)
  {
    hide Inv, JobGet, FanOut, Tells, RunsOn, TakeHangs, PeekHangs;
    Gets(cfg, s, x, c, h, j);
    FanOutIs(s, List(s.jobClients, j), j, kind);
  }

  /** A cancel: each client is told that the job failed; the job is ignored and leaves the persistent queue, unless
      it cannot be taken out of that. */
  lemma CancelAnswers(cfg: Config, s: State, h: string, ok: bool, j: Id)
    requires JobGet(cfg, s, h, None) == Some(j)
    ensures var t := Step(cfg, s, Cancel(h, ok));
            && j in s.jobs && Tells(s, t, |s.out|, List(s.jobClients, j), j, Fail)
            && if s.jobs[j].queued && !ok then t == s.(out := t.out)
               else t == s.(out := t.out, store := StoreWithout(s, j),
                            jobs := s.jobs[j := s.jobs[j].(ignore := true, queued := false)])
  {
    hide JobGet, FanOut, CancelJob, Tells, Accepts, RunsOn, TakeHangs, PeekHangs;
    JobGets(cfg, s, h, None);
    CancelFrame(cfg, s, h, ok, j);
    var cls := List(s.jobClients, j);
    FanOutIs(s, cls, j, Fail);
    SameTold(s, FanOut(s, cls, j, Fail), CancelJob(cfg, s, h, ok), |s.out|, cls, j, Fail);
  }

  /** A result or an update of a job that the connection does not run is an error, and nothing else happens. */
  lemma NotYours(cfg: Config, s: State, e: Event)
    requires Enabled(cfg, s, e) && (e.Result? || e.Update?) && JobGet(cfg, s, e.handle, Some(e.con)).None?
    ensures Step(cfg, s, e) == s.(out := s.out + [Error(e.con)])
  {
    hide JobGet, FanOut, QueueDone, FreeJob, TakeHangs, PeekHangs;
  }

  // PRE_SLEEP

  /** Where the look for a job ends, what it says is what is there to be seen. */
  lemma {:induction false} PeekSees(cfg: Config, s: State, c: Id)
    requires Inv(cfg, s, BARE)
    ensures var (t, j) := Peek(cfg, s, c); Inv(cfg, t, BARE) && j == Look(t, List(t.conWorkers, c))
    decreases |s.jobs|
  {
    hide Inv, Look, Take, FreeJob, Thins, Best, Safe, TakeHangs, Eligible;
    var j := Look(s, List(s.conWorkers, c));
    if j.Some? { LookedIs(cfg, s, c, j.value); }
    if j.Some? && s.jobs[j.value].ignore {
      var lost := Round(cfg, s, c, j.value);
      PeekSees(cfg, Rest(cfg, s, c, j.value), c);
    }
  }

  /** PRE_SLEEP: if a job is there that the connection could run, it is told so at once, and does not sleep; if
      there is none, it sleeps, its job timeout is gone, and it is told nothing. */
  lemma SleepAnswers(cfg: Config, s: State, x: Phase, c: Id)
    requires Inv(cfg, s, x) && Steady(x) && Enabled(cfg, s, PreSleep(c))
    ensures var t := Step(cfg, s, PreSleep(c));
            && c in t.cons && t.cons[c].noopSent == s.cons[c].noopSent
            && if exists a :: Eligible(t, c, a)
               then t.out == s.out + [Noop(c)] && t.cons[c].sleeping == s.cons[c].sleeping
               else t.out == s.out && t.cons[c].sleeping && t.cons[c].timer == None
  {
    hide Inv, Look, Peek, Eligible, TakeHangs, PeekHangs;
    WeakenInv(cfg, s, x, BARE);
    PeekSees(cfg, s, c);
    PeekSame(cfg, s, c, c);
    var (s1, j) := Peek(cfg, s, c);
    var t := Sleep(cfg, s, c);
    forall a ensures Eligible(t, c, a) <==> Eligible(s1, c, a) { SameEligible(s1, t, c, a); }
    if j.Some? {
      LookedIs(cfg, s1, c, j.value);
      assert Eligible(t, c, j.value);
    } else {
      forall a ensures !Eligible(t, c, a) { if Eligible(s1, c, a) { LooksAt(cfg, s1, c, a); } }
    }
  }

  lemma SameEligible(s: State, t: State, c: Id, a: Id)
    requires t == s.(out := t.out, cons := t.cons)
    ensures Eligible(t, c, a) <==> Eligible(s, c, a)
  {}

  // GRAB_JOB

  /** Every worker of the connection for the function has a timeout, or none has. */
  ghost predicate AllTimed(s: State, c: Id, f: Name, timed: bool) {
    forall w :: w in s.workers && s.workers[w].con == c && s.workers[w].fn == f ==> (s.workers[w].timeout > 0) == timed
  }

  /** GRAB_JOB: the best job that is wanted is assigned to the connection, which runs it from now on, under a timeout
      if its workers ask for one; if none is wanted, the connection is told so. It is awake, and may be sent
      NOOPs again. An ignored job that it comes upon costs the connection its job timeout, whatever that is about. */
  lemma GrabAnswers(cfg: Config, s: State, x: Phase, c: Id)
    requires Inv(cfg, s, x) && Steady(x) && Enabled(cfg, s, Grab(c, true))
    ensures var t := Step(cfg, s, Grab(c, true));
            && c in t.cons && !t.cons[c].sleeping && !t.cons[c].noopSent
            && if exists a :: Wanted(s, c, a)
               then exists j :: j in s.jobs && Best(s, c, j) && Assigned(s, t, c, j)
               else t.out == s.out + [NoJob(c)]
                    && t.cons[c].timer == if exists a :: Eligible(s, c, a) then None else s.cons[c].timer
  {
    hide Inv, Take, Wanted, Best, Eligible, RunsOn, Assigned, ArmTimer, TakeHangs, PeekHangs;
    WeakenInv(cfg, s, x, BARE);
    var s0 := Awake(s, c);
    AwakeInv(cfg, s, BARE, c);
    TakeBest(cfg, s0, BARE, c);
    TakeInv(cfg, s0, BARE, c);
    TakeSame(cfg, s0, c, c);
    var (s1, r) := Take(cfg, s0, c);
    forall a: Id { SameBest(s, s0, c, a); }
    if r.Some? {
      var j := r.value;
      BestWanted(s, c, j);
      TakeAside(cfg, s0, BARE, c, j);
      TakeThins(cfg, s0, c);
      FreshRuns(cfg, s1, c, j);
      GrabAssigns(cfg, s, s0, s1, c, j);
    } else {
      forall a ensures Eligible(s0, c, a) <==> Eligible(s, c, a) { SameEligible(s, s0, c, a); }
      TakeTimer(cfg, s0, c);
    }
  }

  lemma BestWanted(s: State, c: Id, j: Id)
    requires Best(s, c, j)
    ensures Wanted(s, c, j) && j in s.jobs && !s.jobs[j].ignore
  {}

  /** Job `j` runs on connection `c`, which was told so and nothing else. */
  ghost predicate Assigned(s: State, t: State, c: Id, j: Id) {
    && j in s.jobs && j in t.jobs && t.jobs[j] == s.jobs[j] && RunsOn(t, j, c) && t.out == s.out + [Assign(c, j)]
    && c in t.cons && (AllTimed(s, c, s.jobs[j].spec.fn, true) ==> t.cons[c].timer == Some(j))
    && (AllTimed(s, c, s.jobs[j].spec.fn, false) ==> t.cons[c].timer == None)
  }

  lemma GrabAssigns(cfg: Config, s: State, s0: State, s1: State, c: Id, j: Id)
    requires Inv(cfg, s1, Taken(BARE, Some(j))) && RunsOn(s1, j, c) && s0 == s.(cons := s0.cons) && Thins(s0, s1)
    requires j in s.jobs && j in s1.jobs && s1.jobs[j] == s.jobs[j] && c in s1.cons
    ensures Assigned(s, ArmTimer(Emit(s1, Assign(c, j)), c, j), c, j)
    ensures var t := ArmTimer(Emit(s1, Assign(c, j)), c, j);
              c in t.cons && t.cons[c] == s1.cons[c].(timer := t.cons[c].timer)
  {
    hide Inv, Registered, NoDup;
    var f := s.jobs[j].spec.fn;
    ConWorkers(cfg, s1, Taken(BARE, Some(j)), c);
    RegisteredSpec(s1, c, f);
    RunnerFn(cfg, s1, Taken(BARE, Some(j)), j);
    var ws := Registered(s1, c, f);
    assert s1.runs[j] in ws;
    assert ws[0] in ws;
    assert Registered(Emit(s1, Assign(c, j)), c, f) == ws by { SameRegistered(s1, Assign(c, j), c, f); }
  }

  lemma SameRegistered(s: State, o: Output, c: Id, f: Name)
    ensures Registered(Emit(s, o), c, f) == Registered(s, c, f)
  {
    var p, q := (w: Id) => w in s.workers && s.workers[w].fn == f,
                (w: Id) => w in Emit(s, o).workers && Emit(s, o).workers[w].fn == f;
    SameFilter(p, q, List(s.conWorkers, c));
  }

  lemma {:induction false} SameFilter(p: Id -> bool, q: Id -> bool, ws: seq<Id>)
    requires forall w :: p(w) == q(w)
    ensures Filter(p, ws) == Filter(q, ws)
  {
    if ws != [] { SameFilter(p, q, ws[1..]); }
  }

  lemma RunnerFn(cfg: Config, s: State, x: Phase, j: Id)
    requires Inv(cfg, s, x) && j in s.runs
    ensures j in s.jobs && s.runs[j] in s.workers && s.workers[s.runs[j]].fn == s.jobs[j].spec.fn
  {
    hide ListsOk, CountsOk, KeysOk, Durable, RetriesOk, TraceOk, TimersOk, WatchOk, JobRefs, WorkerRefs,
         ClientRefs, ConRefs;
  }

  // What a search that ends empty-handed does to the timeout

  lemma {:induction false} TakeTimer(cfg: Config, s: State, c: Id)
    requires Inv(cfg, s, BARE) && Take(cfg, s, c).1.None? && c in s.cons
    ensures var t := Take(cfg, s, c).0;
              c in t.cons && t.cons[c].timer == if exists a :: Eligible(s, c, a) then None else s.cons[c].timer
    decreases |s.jobs|
  {
    hide Inv, Pick, FreeJob, Fresh, Eligible, Ahead, Selects;
    var (s1, j) := Pick(cfg, s, c, PRIORITIES);
    PickInv(cfg, s, BARE, c, PRIORITIES);
    PickBest(cfg, s, BARE, c);
    PickSelects(cfg, s, BARE, c, PRIORITIES);
    if j.Some? {
      Chosen(s, s1, c, j.value);
      FreshRuns(cfg, s1, c, j.value);
      Floating(cfg, s1, Taken(BARE, j), j.value);
      FreeJobInv(cfg, s1, Taken(BARE, j), j.value);
      var s2 := FreeJob(cfg, s1, j.value);
      ForgetInv(cfg, s2, BARE, j.value);
      FreeJobKeys(cfg, s1, j.value);
      Shrinks(s, s2, j.value);
      FreeJobTimer(cfg, s1, j.value, c);
      TakeTimer(cfg, s2, c);
    }
  }

  lemma Chosen(s: State, t: State, c: Id, j: Id)
    requires Selects(s, t, c, j)
    ensures Eligible(s, c, j)
  {}

  lemma FreeJobTimer(cfg: Config, s: State, j: Id, c: Id)
    requires RunsOn(s, j, c) && c in s.cons
    ensures var t := FreeJob(cfg, s, j); c in t.cons && t.cons[c].timer == None
  {
    hide FreeClients, Detach, Unlink, Life;
  }

  // Abilities

  /** CAN_DO: one more worker of the connection, for the function and with the timeout given, first on the list of the
      connection and last on that of the function; nobody is told anything and no job moves. */
  lemma CanDoAnswers(cfg: Config, s: State, e: Event)
    requires e.CanDo? && Enabled(cfg, s, e)
    ensures var t, w := Step(cfg, s, e), s.nextWorker;
            && t.workers == s.workers[w := Worker(e.con, e.fn, e.timeout)] && Serves(t, e.con, e.fn)
            && List(t.conWorkers, e.con) == [w] + List(s.conWorkers, e.con)
            && List(t.fnWorkers, e.fn) == List(s.fnWorkers, e.fn) + [w]
            && t.jobs == s.jobs && t.runs == s.runs && t.fifo == s.fifo && t.out == s.out && t.cons == s.cons
  {
    hide EnsureFn, TakeHangs, PeekHangs;
    var t := Step(cfg, s, e);
    assert t.workers[s.nextWorker].con == e.con;
  }

  /** CANT_DO removes the workers of the connection for the function, RESET_ABILITIES all its workers, and neither
      any other. */
  lemma CantDoAnswers(cfg: Config, s: State, x: Phase, e: Event)
    requires Inv(cfg, s, x) && Steady(x) && Enabled(cfg, s, e) && (e.CantDo? || e.ResetAbilities?)
    ensures Step(cfg, s, e).workers ==
              map w | w in s.workers && !(s.workers[w].con == e.con && (e.CantDo? ==> s.workers[w].fn == e.fn)) ::
                s.workers[w]
  {
    hide Inv, FreeWorkers, Registered, NoDup, Life, Accepts, TakeHangs, PeekHangs, Truncate, CString;
    WeakenInv(cfg, s, x, BARE);
    ConWorkers(cfg, s, x, e.con);
    match e
    case CantDo(c, f) =>
      RegisteredSpec(s, c, f);
      FreeWorkersInv(cfg, s, BARE, Registered(s, c, f));
    case ResetAbilities(c) => FreeWorkersInv(cfg, s, BARE, List(s.conWorkers, c));
  }

  // Options

  /** Once a connection has asked for exceptions, its clients hear them as such, and those of any other connection
      as before. */
  lemma ExceptionsHeard(cfg: Config, s: State, c: Id, cl: Id, kind: Kind)
    requires Enabled(cfg, s, Exceptions(c)) && cl in s.clients
    ensures Heard(Step(cfg, s, Exceptions(c)), cl, kind) == if s.clients[cl].con == c then kind else Heard(s, cl, kind)
  {
    hide TakeHangs, PeekHangs;
  }

  /** A connection that fails is marked, and that is all: no timeout of its own fires and no NOOP is sent to it until
      a command of its is served again, and no job, worker or client moves before it is cleaned up. */
  lemma DisconnectAnswers(cfg: Config, s: State, c: Id)
    requires Enabled(cfg, s, Disconnect(c))
    ensures var t := Step(cfg, s, Disconnect(c));
            && t == s.(cons := t.cons) && t.cons == s.cons[c := t.cons[c]] && t.cons[c].dead && !t.cons[c].removed
            && !Enabled(cfg, t, JobTimeout(c)) && !Dozes(t.cons, c) && Enabled(cfg, t, Cleanup(c))
  {
    hide TakeHangs, PeekHangs;
  }
}
