/** The invariant through queueing, freeing and adding jobs and freeing workers. */
module JobOps {
  import opened Seqs
  import opened Ownership
  import opened Scheduler
  import opened Tables
  import opened Uniques
  import opened Retries
  import opened Traces
  import opened Timers
  import opened Wakeups
  import opened Invariant
  import opened Records
  import opened Notices

  // Queueing

  lemma WokenInv(cfg: Config, s: State, x: Phase, f: Name)
    requires Inv(cfg, s, x)
    ensures var t := Wake(s, f, cfg.workerWakeup); Inv(cfg, t, x) && (x.watched ==> !Dozing(t.workers, t.cons, f))
  {
    hide ListsOk, RefsOk, CountsOk, KeysOk, Durable, RetriesOk, TraceOk, TimersOk, WatchOk, Wake, Dozing;
    WakeInv(cfg, s, x, f);
    if x.watched { WakesAll(cfg, s, x.floating, f); }
  }

  lemma EnqueueInv(cfg: Config, s: State, x: Phase, j: Id)
    requires Inv(cfg, s, x) && x.floating == {j}
    ensures Inv(cfg, Enqueue(cfg, s, j), x.(floating := {}))
  {
    hide Inv, Wake, Append, Dozing;
    Floating(cfg, s, x, j);
    WokenInv(cfg, s, x, s.jobs[j].spec.fn);
    AppendInv(cfg, Wake(s, s.jobs[j].spec.fn, cfg.workerWakeup), x, j);
  }

  lemma Floating(cfg: Config, s: State, x: Phase, j: Id)
    requires Inv(cfg, s, x)
    ensures j in s.jobs ==> s.jobs[j].spec.fn in s.fns && j < s.nextJob
    ensures j in s.runs ==> j in s.jobs && s.runs[j] in s.workers
    ensures j in x.floating ==> j in s.jobs && j !in s.runs
  {
    hide ListsOk, RefsOk, CountsOk, KeysOk, Durable, RetriesOk, TraceOk, TimersOk, WatchOk;
    JobFacts(s, x.floating, j);
  }

  // Freeing

  lemma {:induction false} FreeClientsInv(cfg: Config, s: State, x: Phase, cls: seq<Id>)
    requires Inv(cfg, s, x)
    ensures Inv(cfg, FreeClients(s, cls), x)
    decreases |cls|
  {
    hide Inv, FreeClient;
    if cls != [] {
      FreeClientInv(cfg, s, x, cls[0]);
      FreeClientsInv(cfg, FreeClient(s, cls[0]), x, cls[1..]);
    }
  }

  /** The next client of a job is the head of its list. */
  lemma HeadClient(cfg: Config, s: State, x: Phase, j: Id)
    requires Inv(cfg, s, x) && List(s.jobClients, j) != [] && j in s.jobs
    ensures var cls := List(s.jobClients, j);
            cls[0] in s.clients && s.clients[cls[0]].job == j && List(FreeClient(s, cls[0]).jobClients, j) == cls[1..]
  {
    hide ListsOk, RefsOk, CountsOk, KeysOk, Durable, RetriesOk, TraceOk, TimersOk, WatchOk;
    JobClients(cfg, s, x.floating, j);
  }

  lemma {:induction false} FreeClientsAll(cfg: Config, s: State, x: Phase, j: Id)
    requires Inv(cfg, s, x) && j in s.jobs
    ensures List(FreeClients(s, List(s.jobClients, j)).jobClients, j) == []
    decreases |List(s.jobClients, j)|
  {
    var cls := List(s.jobClients, j);
    hide Inv, FreeClient;
    if cls != [] {
      HeadClient(cfg, s, x, j);
      FreeClientInv(cfg, s, x, cls[0]);
      FreeClientsAll(cfg, FreeClient(s, cls[0]), x, j);
    }
  }

  /** The timeout about a job that is being freed is deleted. */
  lemma UntimedInv(cfg: Config, s: State, x: Phase, j: Id)
    requires Inv(cfg, s, x)
    ensures Inv(cfg, Untimed(s, j), x.(quiet := x.quiet + {j}))
  {
    hide Inv, DeleteTimer;
    Floating(cfg, s, x, j);
    if j in s.runs { DeleteTimerInv(cfg, s, x, j); } else { QuietInv(cfg, s, x, j); }
  }

  /** A job can be freed while it runs, or before it was queued. */
  lemma FreeJobInv(cfg: Config, s: State, x: Phase, j: Id)
    requires Inv(cfg, s, x) && x.spent <= {j}
    requires x.floating == {j} || (x.floating == {} && j in s.runs)
    ensures Inv(cfg, FreeJob(cfg, s, j), x.(floating := {}, spent := {}))
  {
    hide Inv, Untimed, FreeClients, Detach, Unlink;
    Floating(cfg, s, x, j);
    var y := x.(spent := {j});
    SpendInv(cfg, s, x, j);
    UntimedInv(cfg, s, y, j);
    var s1 := Untimed(s, j);
    y := y.(quiet := y.quiet + {j});
    FreeClientsInv(cfg, s1, y, List(s.jobClients, j));
    FreeClientsAll(cfg, s1, y, j);
    var s2 := FreeClients(s1, List(s.jobClients, j));
    if j in s.runs {
      DetachInv(cfg, s2, y, j);
    } else {
      assert Detach(s2, j) == s2 by { Undetached(s2, j); }
    }
    y := y.(floating := {j});
    UnlinkInv(cfg, Detach(s2, j), y, j);
    ForgetInv(cfg, FreeJob(cfg, s, j), x.(floating := {}, spent := {}), j);
  }

  lemma Undetached(s: State, j: Id)
    requires j !in s.runs
    ensures Detach(s, j) == s
  {}

  lemma DropInv(cfg: Config, s: State, x: Phase, j: Id)
    requires Inv(cfg, s, x) && x.floating == {} && x.spent <= {j} && j in s.runs
    requires x.traced ==> forall cl :: cl in List(s.jobClients, j) ==> !Closed(s.out, cl)
    ensures Inv(cfg, Drop(cfg, s, j), x.(spent := {}))
  {
    hide Inv, FanOut, QueueDone, FreeJob, Closed;
    Floating(cfg, s, x, j);
    var s1 := FanOut(s, List(s.jobClients, j), j, Fail);
    FanOutInv(cfg, s, x, j, Fail);
    var y := x.(spent := {j});
    assert x.spent + {j} == {j};
    QueueDoneInv(cfg, s1, y, j);
    FreeJobInv(cfg, QueueDone(s1, j), y, j);
  }

  lemma Parts(cfg: Config, s: State, x: Phase)
    requires Inv(cfg, s, x)
    ensures cfg.jobRetries <= 255
    ensures Durable(s.jobs, s.store, x.spent)
    ensures RetriesOk(cfg, s.jobs, s.runs, s.out, s.nextJob, x.spent)
  {
    hide ListsOk, RefsOk, CountsOk, KeysOk, Durable, RetriesOk, TraceOk, TimersOk, WatchOk;
  }

  lemma RetriedSpent(cfg: Config, s: State, x: Phase, j: Id)
    requires Inv(cfg, s, x) && x.spent == {} && j in s.jobs
    ensures Inv(cfg, Retried(s, j), x.(spent := {j}))
  {
    hide Inv, Durable, RetriesOk, RetryOk, Handouts, Again;
    SpendInv(cfg, s, x, j);
    Parts(cfg, s, x.(spent := {j}));
    FlagDurable(s.jobs, s.store, {j}, j, Again(s.jobs[j]));
    SpentRetry(cfg, s, j);
    SetJobInv(cfg, s, x.(spent := {j}), j, Again(s.jobs[j]));
  }

  lemma RetriedInv(cfg: Config, s: State, x: Phase, j: Id)
    requires Inv(cfg, s, x) && x.spent == {} && j in s.runs && j in s.jobs && !Exhausted(cfg, Again(s.jobs[j]).retries)
    ensures Inv(cfg, Retried(s, j), x) && Unassigned(cfg, Retried(s, j), j)
  {
    hide Inv, Durable, RetriesOk, RetryOk, Handouts, Again, Exhausted;
    Parts(cfg, s, x);
    FlagDurable(s.jobs, s.store, {}, j, Again(s.jobs[j]));
    MoreRetry(cfg, s, j);
    SetJobInv(cfg, s, x, j, Again(s.jobs[j]));
  }

  lemma SpentRetry(cfg: Config, s: State, j: Id)
    requires RetriesOk(cfg, s.jobs, s.runs, s.out, s.nextJob, {j}) && j in s.jobs
    ensures RetryOk(cfg, Again(s.jobs[j]), j in s.runs, true, Handouts(s.out, j))
  {
    hide Handouts;
  }

  lemma MoreRetry(cfg: Config, s: State, j: Id)
    requires RetriesOk(cfg, s.jobs, s.runs, s.out, s.nextJob, {}) && j in s.jobs && j in s.runs && cfg.jobRetries <= 255
    requires !Exhausted(cfg, Again(s.jobs[j]).retries)
    ensures RetryOk(cfg, Again(s.jobs[j]), true, false, Handouts(s.out, j))
    ensures cfg.jobRetries >= 0 ==> Handouts(s.out, j) <= Again(s.jobs[j]).retries
  {
    hide Handouts;
    assert RetryOk(cfg, s.jobs[j], true, false, Handouts(s.out, j));
  }

  lemma RequeuedInv(cfg: Config, s: State, x: Phase, j: Id)
    requires Inv(cfg, s, x) && x.floating == {} && x.spent == {} && j in s.runs && Unassigned(cfg, s, j)
    requires x.timed ==> j in x.quiet
    ensures Inv(cfg, Enqueue(cfg, Detach(s, j), j), x)
  {
    hide Inv, Detach, Enqueue, Unassigned;
    DetachInv(cfg, s, x, j);
    EnqueueInv(cfg, Detach(s, j), x.(floating := {j}), j);
  }

  lemma DroppedInv(cfg: Config, s: State, x: Phase, j: Id)
    requires Inv(cfg, s, x) && x.floating == {} && x.spent == {} && j in s.runs && j in s.jobs
    ensures Inv(cfg, Drop(cfg, Retried(s, j), j), x)
  {
    hide Inv, Drop, Again, Closed;
    if x.traced { Unclosed(cfg, s, x, j); }
    RetriedSpent(cfg, s, x, j);
    DropInv(cfg, Retried(s, j), x.(spent := {j}), j);
  }

  lemma AgainInv(cfg: Config, s: State, x: Phase, j: Id)
    requires Inv(cfg, s, x) && x.floating == {} && x.spent == {} && j in s.runs && j in s.jobs
    requires (x.timed ==> j in x.quiet) && !Exhausted(cfg, Again(s.jobs[j]).retries)
    ensures Inv(cfg, Enqueue(cfg, Detach(Retried(s, j), j), j), x)
  {
    hide Inv, Detach, Enqueue, Unassigned, Exhausted, Again;
    RetriedInv(cfg, s, x, j);
    RequeuedInv(cfg, Retried(s, j), x, j);
  }

  /** A running job is queued again, or dropped. */
  lemma JobQueueInv(cfg: Config, s: State, x: Phase, j: Id)
    requires Inv(cfg, s, x) && x.floating == {} && x.spent == {} && j in s.runs
    requires x.timed ==> j in x.quiet
    ensures Inv(cfg, JobQueue(cfg, s, j), x)
  {
    hide Inv, Detach, Enqueue, Drop, Exhausted, Again, Retried;
    Floating(cfg, s, x, j);
    if Exhausted(cfg, Again(s.jobs[j]).retries) {
      DroppedInv(cfg, s, x, j);
    } else {
      AgainInv(cfg, s, x, j);
    }
  }

  // What freeing and queueing a job leaves alone

  ghost predicate SameWorkers(s: State, t: State) {
    && t.workers == s.workers && t.conWorkers == s.conWorkers && t.clock == s.clock
    && t.nextJob == s.nextJob && t.fns.Keys == s.fns.Keys && Life(t.cons) == Life(s.cons)
         && Accepts(t.out) == Accepts(s.out)
  }

  lemma FreeJobFrame(cfg: Config, s: State, j: Id)
    ensures SameWorkers(s, FreeJob(cfg, s, j))
    ensures j in s.jobs && s.jobs[j].spec.fn in s.fns ==> FreeJob(cfg, s, j).runs == s.runs - {j}
  {
    hide Untimed, FreeClients, Unlink, Detach, Life, Accepts;
    var t := FreeClients(Untimed(s, j), List(s.jobClients, j));
    Detached(t, j);
    UnlinkNames(cfg, Detach(t, j), j);
  }

  lemma Detached(s: State, j: Id)
    ensures j in s.jobs && s.jobs[j].spec.fn in s.fns ==> Detach(s, j).runs == s.runs - {j}
  {}

  lemma UnlinkNames(cfg: Config, s: State, j: Id)
    ensures Unlink(cfg, s, j).fns.Keys == s.fns.Keys
  {}

  lemma EnqueueFrame(cfg: Config, s: State, j: Id)
    ensures var t := Enqueue(cfg, s, j); SameWorkers(s, t) && t.runs == s.runs
  {
    hide Wake, Life, Accepts;
  }

  lemma DropFrame(cfg: Config, s: State, j: Id)
    requires j in s.jobs && s.jobs[j].spec.fn in s.fns
    ensures var t := Drop(cfg, s, j); SameWorkers(s, t) && t.runs == s.runs - {j}
  {
    hide FreeJob, FanOut, QueueDone, Life, Accepts;
    FreeJobFrame(cfg, QueueDone(FanOut(s, List(s.jobClients, j), j, Fail), j), j);
  }

  lemma JobQueueFrame(cfg: Config, s: State, j: Id)
    requires j in s.runs && j in s.jobs && s.jobs[j].spec.fn in s.fns
    ensures var t := JobQueue(cfg, s, j); SameWorkers(s, t) && t.runs == s.runs - {j}
  {
    hide Drop, Enqueue, Detach, Again, Exhausted, Retried, Life, Accepts;
    var s1 := Retried(s, j);
    Detached(s1, j);
    if Exhausted(cfg, Again(s.jobs[j]).retries) {
      DropFrame(cfg, s1, j);
    } else {
      EnqueueFrame(cfg, Detach(s1, j), j);
    }
  }

  // Freeing workers

  lemma {:induction false} RequeueAllInv(cfg: Config, s: State, x: Phase, js: seq<Id>)
    requires Inv(cfg, s, x) && x.floating == {} && x.spent == {}
    requires NoDup(js) && forall j :: j in js ==> j in s.runs
    requires x.timed ==> forall j :: j in js ==> j in x.quiet
    ensures var t := RequeueAll(cfg, s, js);
            Inv(cfg, t, x) && SameWorkers(s, t) && t.runs == s.runs - (set j | j in js)
    decreases |js|
  {
    if js == [] {
      hide Inv;
      assert s.runs - {} == s.runs;
    } else {
      hide Inv, JobQueue, NoDup, Life, Accepts;
      HeadTail(js);
      Floating(cfg, s, x, js[0]);
      JobQueueInv(cfg, s, x, js[0]);
      JobQueueFrame(cfg, s, js[0]);
      RequeueAllInv(cfg, JobQueue(cfg, s, js[0]), x, js[1..]);
      Minus(s.runs, js);
    }
  }

  lemma Minus(m: map<Id, Id>, js: seq<Id>)
    requires js != []
    ensures m - {js[0]} - (set j | j in js[1..]) == m - (set j | j in js)
  {
    assert js == [js[0]] + js[1..];
  }

  lemma RunningList(cfg: Config, s: State, x: Phase, w: Id)
    requires Inv(cfg, s, x)
    ensures NoDup(List(s.running, w)) && forall j :: j in List(s.running, w) <==> j in s.runs && s.runs[j] == w
  {
    hide RefsOk, CountsOk, KeysOk, Durable, RetriesOk, TraceOk, TimersOk, WatchOk;
  }

  lemma FreeWorkerInv(cfg: Config, s: State, x: Phase, w: Id)
    requires Inv(cfg, s, x) && x.floating == {} && x.spent == {} && w in s.workers
    requires x.timed ==> forall j :: j in s.runs && s.runs[j] == w ==> j in x.quiet
    ensures var t := FreeWorker(cfg, s, w); Inv(cfg, t, x) && FreedOf(s, t, w)
  {
    hide Inv, RequeueAll, NoDup, Life, Accepts;
    RunningList(cfg, s, x, w);
    RequeueAllInv(cfg, s, x, List(s.running, w));
    var t := RequeueAll(cfg, s, List(s.running, w));
    RunningList(cfg, t, x, w);
    Nothing(List(t.running, w));
    DelWorkerInv(cfg, t, x, w);
  }

  /** `t` is without worker `w` and nothing new runs. */
  ghost predicate FreedOf(s: State, t: State, w: Id) {
    && t.workers == s.workers - {w} && t.clock == s.clock && Life(t.cons) == Life(s.cons)
         && Accepts(t.out) == Accepts(s.out)
    && (forall j :: j in t.runs ==> j in s.runs && t.runs[j] == s.runs[j])
  }

  lemma Nothing(q: seq<Id>)
    ensures (forall j :: j !in q) ==> q == []
  {
    if q != [] { assert q[0] in q; }
  }

  lemma {:induction false} FreeWorkersInv(cfg: Config, s: State, x: Phase, ws: seq<Id>)
    requires Inv(cfg, s, x) && x.floating == {} && x.spent == {}
    requires NoDup(ws) && forall w :: w in ws ==> w in s.workers
    requires x.timed ==> forall j :: j in s.runs && s.runs[j] in ws ==> j in x.quiet
    ensures var t := FreeWorkers(cfg, s, ws);
            && Inv(cfg, t, x) && t.clock == s.clock && Life(t.cons) == Life(s.cons) && Accepts(t.out) == Accepts(s.out)
            && t.workers == s.workers - (set w | w in ws)
    decreases |ws|
  {
    if ws == [] {
      hide Inv;
      assert s.workers - {} == s.workers;
    } else {
      hide Inv, FreeWorker, NoDup, Life, Accepts;
      HeadTail(ws);
      FreeWorkerInv(cfg, s, x, ws[0]);
      FreeWorkersInv(cfg, FreeWorker(cfg, s, ws[0]), x, ws[1..]);
      Fewer(s.workers, ws);
    }
  }

  lemma Fewer(m: map<Id, Worker>, ws: seq<Id>)
    requires ws != []
    ensures m - {ws[0]} - (set w | w in ws[1..]) == m - (set w | w in ws)
  {
    assert ws == [ws[0]] + ws[1..];
  }

  // Adding jobs

  lemma RecordInv(cfg: Config, s: State, x: Phase, j: Id, origin: Origin)
    requires Inv(cfg, s, x) && x.spent == {} && j in s.jobs
    requires origin.Replayed? ==> KeyOf(s.jobs[j]) in s.store
    ensures Inv(cfg, Record(s, j, origin), x)
  {
    hide Inv, Durable, RetriesOk, RetryOk, Handouts;
    if !origin.Foreground? {
      Parts(cfg, s, x);
      var store, job := s.store + {KeyOf(s.jobs[j])}, s.jobs[j].(queued := true);
      RecordDurable(s.jobs, s.store, j);
      StoreInv(cfg, s, x, store);
      SameRetry(cfg, s, x.spent, j, job);
      SetJobInv(cfg, s.(store := store), x, j, job);
      assert origin.Replayed? ==> s.(store := store) == s;
    }
  }

  lemma RecordDurable(jobs: Jobs, store: set<Key>, j: Id)
    requires Durable(jobs, store, {}) && j in jobs
    ensures Durable(jobs, store + {KeyOf(jobs[j])}, {})
    ensures Durable(jobs[j := jobs[j].(queued := true)], store + {KeyOf(jobs[j])}, {})
  {
    hide Named;
  }

  lemma NewJobInv(cfg: Config, s: State, x: Phase, f: Name, u: string, data: string, p: Priority, when: int)
    requires Inv(cfg, s, x) && x.floating == {} && x.spent == {} && f in s.fns && FindEqual(cfg, s, f, u, data).None?
    ensures Inv(cfg, Create(cfg, s, NewJob(cfg, s.nextJob, f, u, data, p, when)), x.(floating := {s.nextJob}))
  {
    hide Inv, FindEqual, KeysOk, Owned;
    Indexed(cfg, s, x);
    NewKeys(cfg, s, f, u, data, p, when);
    CreateInv(cfg, s, x, NewJob(cfg, s.nextJob, f, u, data, p, when));
  }

  lemma Indexed(cfg: Config, s: State, x: Phase)
    requires Inv(cfg, s, x)
    ensures Owned(UniqueBuckets(cfg, s.jobs), s.uniqueIx) && Owned(HandleBuckets(cfg, s.jobs), s.handleIx)
              && KeysOk(cfg, s.jobs)
  {
    hide Owned, RefsOk, CountsOk, KeysOk, Durable, RetriesOk, TraceOk, TimersOk, WatchOk;
  }

  lemma Creates(cfg: Config, s: State, job: Job)
    requires job.spec.fn in s.fns
    ensures var t := Create(cfg, s, job);
            t.jobs == s.jobs[s.nextJob := job] && t.store == s.store && t.cons == s.cons && t.out == s.out
  {}

  lemma Found(cfg: Config, s: State, f: Name, u: string, data: string)
    ensures var r := FindEqual(cfg, s, f, u, data); r.Some? ==> r.value in s.jobs
  {
    var key, byData := UniqueKey(cfg, u, data), u == "-";
    var text := if byData then data else CString(u);
    FindSpec(s.jobs, List(s.uniqueIx, Bucket(cfg, key)),
             (job: Job) => job.spec.fn == f && job.spec.uniqueKey == key
                 && (if byData then job.spec.data == text else job.spec.unique == text));
  }

  lemma JobAddInv(cfg: Config, s: State, x: Phase, f: Name, u: string, data: string, p: Priority, when: int,
      origin: Origin)
    requires Inv(cfg, s, x) && x.floating == {} && x.spent == {}
    requires origin.Replayed? ==> (Truncate(CString(u), MAX_UNIQUE_SIZE - 1), |u|, f) in s.store
    ensures Inv(cfg, JobAdd(cfg, s, f, u, data, p, when, origin).0, x)
  {
    hide Inv, EnsureFn, FindEqual, Limited, Create, FreeJob, Record, Enqueue;
    EnsureFnInv(cfg, s, x, f);
    var s0 := EnsureFn(s, f);
    if FindEqual(cfg, s0, f, u, data).None? && !Limited(s0.fns[f], p) {
      var j, job := s0.nextJob, NewJob(cfg, s0.nextJob, f, u, data, p, when);
      NewJobInv(cfg, s0, x, f, u, data, p, when);
      Creates(cfg, s0, job);
      var s1 := Create(cfg, s0, job);
      if origin == Background(false) {
        FreeJobInv(cfg, s1, x.(floating := {j}), j);
      } else {
        RecordInv(cfg, s1, x.(floating := {j}), j, origin);
        EnqueueInv(cfg, Record(s1, j, origin), x.(floating := {j}), j);
      }
    }
  }
}
