/** What holds after every run of the server, in terms of what it shows. */
module Guarantees {
  import opened Seqs
  import opened Ownership
  import opened Scheduler
  import opened Tables
  import opened Uniques
  import opened Retries
  import opened Traces
  import opened Timers
  import opened Wakeups
  import opened Invariant
  import opened Records
  import opened Commands
  import opened Steps
  import opened Endings

  /** `t` is where some run from a fresh server ends, all its events meeting the conditions of the
      guarantees `x`. */
  ghost predicate Reached(cfg: Config, x: Phase, t: State) {
    && cfg.jobRetries <= 255 && Steady(x)
    && exists store, now, es :: Started(cfg, x, store, now) && Ends(cfg, x, store, now, es, t)
  }

  ghost predicate Started(cfg: Config, x: Phase, store: set<Key>, now: int) {
    x.watched ==> cfg.workerWakeup == 0 && now >= 0
  }

  ghost predicate Ends(cfg: Config, x: Phase, store: set<Key>, now: int, es: seq<Event>, t: State) {
    var s := Init(store, now);
    Runs(cfg, s, es) && AllAllowed(cfg, s, x, es) && t == Run(cfg, s, es)
  }

  lemma ReachedInv(cfg: Config, x: Phase, t: State)
    requires Reached(cfg, x, t)
    ensures Inv(cfg, t, x) && Steady(x)
  {
    hide Inv, Runs, Run, AllAllowed, Init;
    var store, now, es :| Started(cfg, x, store, now) && Ends(cfg, x, store, now, es, t);
    InitInv(cfg, x, store, now);
    RunInv(cfg, Init(store, now), x, es);
  }

  /** Every timeout comes while its job runs, in a run whose conditions are about its events alone: no
      CANT_DO or RESET_ABILITIES removes the worker of a timed job, and no timeout of a dead connection
      fires. What holds after runs with such timeouts holds after those. */
  lemma Orderly(cfg: Config, x: Phase, t: State)
    requires Reached(cfg, x, t) && x.timed
    ensures Reached(cfg, x.(timed := false), t)
  {
    hide Inv, Runs, Run, AllAllowed, Init;
    var store, now, es :| Started(cfg, x, store, now) && Ends(cfg, x, store, now, es, t);
    InitInv(cfg, x, store, now);
    OrderlyRun(cfg, Init(store, now), x, es);
    assert Started(cfg, x.(timed := false), store, now) && Ends(cfg, x.(timed := false), store, now, es, t);
  }

  // Lists

  /** `x` is on the list of `k` once and on no other. */
  ghost predicate OnlyOn<K(!new)>(lists: map<K, seq<nat>>, k: K, x: nat) {
    forall k' :: multiset(List(lists, k'))[x] == if k' == k then 1 else 0
  }

  ghost predicate Nowhere<K(!new)>(lists: map<K, seq<nat>>, x: nat) {
    forall k :: x !in List(lists, k)
  }

  lemma {:induction false} CountOne(q: seq<nat>, x: nat)
    requires NoDup(q) && x in q
    ensures multiset(q)[x] == 1
  {
    assert q == [q[0]] + q[1..];
    if x == q[0] {
      assert x !in q[1..];
    } else {
      CountOne(q[1..], x);
    }
  }

  lemma OwnedOnly<K(!new)>(owner: map<nat, K>, lists: map<K, seq<nat>>, x: nat)
    requires Owned(owner, lists)
    ensures if x in owner then OnlyOn(lists, owner[x], x) else Nowhere(lists, x)
  {
    if x in owner {
      CountOne(lists[owner[x]], x);
      forall k: K ensures multiset(List(lists, k))[x] == if k == owner[x] then 1 else 0 {
        assert k != owner[x] ==> x !in List(lists, k);
      }
    }
  }

  /** Every live job is in exactly one place: once in the FIFO of its function and priority, or
      once on the running list of one worker for its function. */
  lemma PlacedOnce(cfg: Config, x: Phase, t: State, j: Id)
    requires Reached(cfg, x, t) && j in t.jobs
    ensures if j in t.runs
            then OnlyOn(t.running, t.runs[j], j) && Nowhere(t.fifo, j)
                 && t.runs[j] in t.workers && t.workers[t.runs[j]].fn == t.jobs[j].spec.fn
            else OnlyOn(t.fifo, HomeOf(t.jobs[j]), j) && Nowhere(t.running, j)
  {
    hide Reached, Owned, CountsOk, KeysOk, Durable, RetriesOk, TraceOk, TimersOk, WatchOk, OnlyOn, Nowhere,
         HandleBuckets, UniqueBuckets;
    ReachedInv(cfg, x, t);
    OwnedOnly(Waiting(t.jobs, t.runs, {}), t.fifo, j);
    OwnedOnly(t.runs, t.running, j);
  }

  /** Every worker is once on the list of its connection and once on that of its function, and
      every client once on the list of its connection and once on that of its job. */
  lemma ListedOnce(cfg: Config, x: Phase, t: State, i: Id)
    requires Reached(cfg, x, t)
    ensures if i in t.workers
            then OnlyOn(t.conWorkers, t.workers[i].con, i) && OnlyOn(t.fnWorkers, t.workers[i].fn, i)
            else Nowhere(t.conWorkers, i) && Nowhere(t.fnWorkers, i)
    ensures if i in t.clients
            then OnlyOn(t.conClients, t.clients[i].con, i) && OnlyOn(t.jobClients, t.clients[i].job, i)
            else Nowhere(t.conClients, i) && Nowhere(t.jobClients, i)
  {
    hide Reached, Owned, RefsOk, CountsOk, KeysOk, Durable, RetriesOk, TraceOk, TimersOk, WatchOk, OnlyOn, Nowhere,
         HandleBuckets, UniqueBuckets, Waiting;
    ReachedInv(cfg, x, t);
    OwnedOnly(Owner(t.workers, ConOf), t.conWorkers, i);
    OwnedOnly(Owner(t.workers, FnOf), t.fnWorkers, i);
    OwnedOnly(Owner(t.clients, ClientCon), t.conClients, i);
    OwnedOnly(Owner(t.clients, ClientJob), t.jobClients, i);
  }

  /** Nothing refers to a connection that was cleaned up: no worker, no client, no running job. */
  lemma Unreferenced(cfg: Config, x: Phase, t: State, c: Id)
    requires Reached(cfg, x, t) && c in t.cons && t.cons[c].removed
    ensures t.cons[c].dead
    ensures forall w :: w in t.workers ==> t.workers[w].con != c
    ensures forall cl :: cl in t.clients ==> t.clients[cl].con != c
    ensures forall j :: !RunsOn(t, j, c)
  {
    hide Reached, ListsOk, CountsOk, KeysOk, Durable, RetriesOk, TraceOk, TimersOk, WatchOk, JobRefs;
    ReachedInv(cfg, x, t);
  }

  // The figures of the `status` command

  lemma QueuedJobs(cfg: Config, t: State, f: Name)
    requires ListsOk(cfg, t, {})
    ensures var a, b, c := Elems(List(t.fifo, (f, High))), Elems(List(t.fifo, (f, Normal))),
              Elems(List(t.fifo, (f, Low)));
            && a !! b && a !! c && b !! c
            && JobsOf(t.jobs, f) - RunningOf(t.jobs, t.runs, f) == a + b + c
  {
    hide ListsOk, List, NoDup;
    QueuedSet(cfg, t, f, High); QueuedSet(cfg, t, f, Normal); QueuedSet(cfg, t, f, Low);
    var a, b, c := Elems(List(t.fifo, (f, High))), Elems(List(t.fifo, (f, Normal))), Elems(List(t.fifo, (f, Low)));
    var all := JobsOf(t.jobs, f) - RunningOf(t.jobs, t.runs, f);
    forall j ensures j in all <==> j in a || j in b || j in c {
      if j in all {
        var p := t.jobs[j].spec.priority;
        assert p == High || p == Normal || p == Low;
      }
    }
  }

  lemma QueuedSize(cfg: Config, t: State, f: Name)
    requires ListsOk(cfg, t, {})
    ensures |JobsOf(t.jobs, f) - RunningOf(t.jobs, t.runs, f)| == QueuedOf(t.fifo, f)
  {
    hide ListsOk, List, NoDup, JobsOf, RunningOf, Elems, HomeOf;
    QueuedJobs(cfg, t, f);
    QueuedSet(cfg, t, f, High); QueuedSet(cfg, t, f, Normal); QueuedSet(cfg, t, f, Low);
    var a, b, c := List(t.fifo, (f, High)), List(t.fifo, (f, Normal)), List(t.fifo, (f, Low));
    ElemsSize(a); ElemsSize(b); ElemsSize(c);
    Union(Elems(a), Elems(b), Elems(c));
  }

  lemma Union(a: set<Id>, b: set<Id>, c: set<Id>)
    requires a !! b && a !! c && b !! c
    ensures |a + b + c| == |a| + |b| + |c|
  {
    assert |a + b| == |a| + |b|;
    assert (a + b) !! c;
  }

  lemma QueuedSet(cfg: Config, t: State, f: Name, p: Priority)
    requires ListsOk(cfg, t, {})
    ensures var q := List(t.fifo, (f, p));
            NoDup(q) && forall j :: j in q <==> j in t.jobs && j !in t.runs && HomeOf(t.jobs[j]) == (f, p)
  {
    var q := List(t.fifo, (f, p));
    forall j ensures j in q <==> j in t.jobs && j !in t.runs && HomeOf(t.jobs[j]) == (f, p) {
      if j in q { assert j in Waiting(t.jobs, t.runs, {}); }
      if j in t.jobs && j !in t.runs { assert Waiting(t.jobs, t.runs, {})[j] == HomeOf(t.jobs[j]); }
    }
  }

  lemma Total(cfg: Config, t: State, f: Name)
    requires ListsOk(cfg, t, {})
    ensures |JobsOf(t.jobs, f)| == QueuedOf(t.fifo, f) + |RunningOf(t.jobs, t.runs, f)|
  {
    hide ListsOk, QueuedOf;
    QueuedSize(cfg, t, f);
    Split(JobsOf(t.jobs, f), RunningOf(t.jobs, t.runs, f));
  }

  lemma Split(a: set<Id>, b: set<Id>)
    ensures b <= a ==> |a| == |a - b| + |b|
  {
    if b <= a { assert a == (a - b) + b; }
  }

  /** The figures balance: the jobs waiting are those in the three FIFOs, the jobs running those
      assigned, and all jobs are the two together. */
  lemma StatusBalances(cfg: Config, x: Phase, t: State, f: Name)
    requires Reached(cfg, x, t) && f in t.fns
    ensures var fn := t.fns[f];
            && fn.jobCount == |List(t.fifo, (f, High))| + |List(t.fifo, (f, Normal))| + |List(t.fifo, (f, Low))|
            && fn.jobRunning == |RunningOf(t.jobs, t.runs, f)|
            && fn.jobTotal == fn.jobCount + fn.jobRunning == |JobsOf(t.jobs, f)|
  {
    hide Reached, ListsOk, KeysOk, Durable, RetriesOk, TraceOk, TimersOk, WatchOk, JobRefs, WorkerRefs, ClientRefs,
         ConRefs, RunRefs, JobsOf, RunningOf;
    ReachedInv(cfg, x, t);
    Total(cfg, t, f);
    assert CountOk(t.fns[f], f, t.jobs, t.runs, t.fifo);
  }

  // Uniques, retries and the persistent queue

  /** No two live jobs of a function share a unique of 1 to 63 bytes, and no two "-" jobs share
      their data, whatever the hash function. */
  lemma NoTwins(cfg: Config, x: Phase, t: State, j: Id, k: Id)
    requires Reached(cfg, x, t) && j in t.jobs && k in t.jobs && t.jobs[j].spec.fn == t.jobs[k].spec.fn && j != k
    ensures Named(t.jobs[j].spec) ==>
              t.jobs[k].spec.uniqueLength != t.jobs[j].spec.uniqueLength
                  || t.jobs[k].spec.unique != t.jobs[j].spec.unique
    ensures Dashed(t.jobs[j].spec) && Dashed(t.jobs[k].spec) ==> t.jobs[k].spec.data != t.jobs[j].spec.data
  {
    hide Reached, ListsOk, RefsOk, CountsOk, Durable, RetriesOk, TraceOk, TimersOk, WatchOk, KeyedOk, HandleOk;
    ReachedInv(cfg, x, t);
    assert !Equal(t.jobs[j].spec, t.jobs[k].spec);
  }

  /** While the job that a unique other than "" and "-" was first submitted for is live, submitting the
      unique again finds a job exactly when its C string fits into the 63 bytes that are kept of it. The job
      it finds is that one, or has its function, its unique and its hash but was submitted with more bytes. */
  lemma Coalesces(cfg: Config, x: Phase, t: State, j: Id, f: Name, u: string, data: string, p: Priority, when: int)
    requires Reached(cfg, x, t) && u != "" && u != "-"
    requires j in t.jobs && t.jobs[j].spec == NewJob(cfg, j, f, u, data, p, when).spec
    ensures FindEqual(cfg, t, f, u, data).Some? <==> |CString(u)| < MAX_UNIQUE_SIZE
    ensures |CString(u)| == |u| < MAX_UNIQUE_SIZE ==> Same(t.jobs, FindEqual(cfg, t, f, u, data), j)
  {
    hide Reached, Owned, RefsOk, CountsOk, KeysOk, Durable, RetriesOk, TraceOk, TimersOk, WatchOk, FindEqual, NewJob,
         CString, UniqueBuckets, HandleBuckets, Same;
    ReachedInv(cfg, x, t);
    FoundAgain(cfg, t, j, f, u, data, p, when);
  }

  /** With `job_retries` N >= 0 no job is ever handed out more than max(1, N) times; for N >= 1 a
      live job has been retried fewer than N times. */
  lemma HandedOut(cfg: Config, x: Phase, t: State, j: Id)
    requires Reached(cfg, x, t) && cfg.jobRetries >= 0
    ensures Handouts(t.out, j) <= if cfg.jobRetries == 0 then 1 else cfg.jobRetries
    ensures j in t.jobs ==> t.jobs[j].retries < if cfg.jobRetries == 0 then 1 else cfg.jobRetries
  {
    hide Reached, ListsOk, RefsOk, CountsOk, KeysOk, Durable, TraceOk, TimersOk, WatchOk, Handouts;
    ReachedInv(cfg, x, t);
    assert j in t.jobs ==> RetryOk(cfg, t.jobs[j], j in t.runs, false, Handouts(t.out, j));
  }

  /** A live job that is marked as queued and has a unique of 1 to 63 bytes is in the persistent
      queue. */
  lemma Stored(cfg: Config, x: Phase, t: State, j: Id)
    requires Reached(cfg, x, t) && j in t.jobs && t.jobs[j].queued && Named(t.jobs[j].spec)
    ensures KeyOf(t.jobs[j]) in t.store
  {
    hide Reached, ListsOk, RefsOk, CountsOk, KeysOk, RetriesOk, TraceOk, TimersOk, WatchOk;
    ReachedInv(cfg, x, t);
  }

  /** The end of a job takes its own key out of the persistent queue, and no other job's. */
  lemma CompletionSpares(cfg: Config, x: Phase, t: State, c: Id, h: string, kind: Kind, ok: bool, k: Id)
    requires Reached(cfg, x, t) && k in t.jobs && t.jobs[k].queued && Named(t.jobs[k].spec)
    ensures KeyOf(t.jobs[k]) in WorkResult(cfg, t, c, h, kind, ok).store <==>
              !(JobGet(cfg, t, h, Some(c)) == Some(k) && ok)
  {
    hide Reached, ListsOk, RefsOk, CountsOk, RetriesOk, TraceOk, TimersOk, WatchOk, JobGet, WorkResult, KeysOk, Named;
    ReachedInv(cfg, x, t);
    JobGets(cfg, t, h, Some(c));
    var j := JobGet(cfg, t, h, Some(c));
    ResultStore(cfg, t, x, c, h, kind, ok);
    if j.Some? { DoneDurable(cfg, t.jobs, t.store, j.value); }
  }

  /** What a result makes of the persistent queue. */
  lemma ResultStore(cfg: Config, s: State, x: Phase, c: Id, h: string, kind: Kind, ok: bool)
    requires Inv(cfg, s, x)
    ensures var j := JobGet(cfg, s, h, Some(c));
            WorkResult(cfg, s, c, h, kind, ok).store ==
              if j.Some? && j.value in s.jobs && s.jobs[j.value].queued && ok then s.store - {KeyOf(s.jobs[j.value])}
              else s.store
  {
    hide Inv, JobGet, FanOut, FreeJob, QueueDone, List, Accepts, WorkResult;
    var j := JobGet(cfg, s, h, Some(c));
    if j.Some? { HandleShort(cfg, s, x, h, Some(c), j.value); }
    if j.None? || j.value !in s.jobs {
      ResultFails(cfg, s, c, h, kind, ok);
    } else {
      ResultGoes(cfg, s, c, h, kind, ok, j.value);
    }
  }

  lemma ResultFails(cfg: Config, s: State, c: Id, h: string, kind: Kind, ok: bool)
    requires var j := JobGet(cfg, s, h, Some(c));
               j.None? || j.value !in s.jobs || (kind == Fail && |h| >= JOB_HANDLE_SIZE)
    ensures WorkResult(cfg, s, c, h, kind, ok) == Emit(s, Error(c))
  {
    hide JobGet, FanOut, FreeJob, QueueDone, List, Accepts, Emit;
  }

  lemma ResultGoes(cfg: Config, s: State, c: Id, h: string, kind: Kind, ok: bool, j: Id)
    requires JobGet(cfg, s, h, Some(c)) == Some(j) && j in s.jobs && |h| < JOB_HANDLE_SIZE
    ensures WorkResult(cfg, s, c, h, kind, ok).store ==
              if s.jobs[j].queued && ok then s.store - {KeyOf(s.jobs[j])} else s.store
  {
    hide JobGet, FanOut, FreeJob, QueueDone, List, Accepts, KeyOf;
    var s1 := FanOut(Emit(s, Accepted(c, j)), List(s.jobClients, j), j, kind);
    assert s1.jobs == s.jobs && s1.store == s.store;
    QueueForgets(s1, j);
    FreeStore(cfg, QueueDone(s1, j), j);
  }

  lemma FreeStore(cfg: Config, s: State, j: Id)
    ensures FreeJob(cfg, s, j).store == s.store
  {
    hide Untimed, FreeClients, Detach, Unlink;
  }

  // Conditional guarantees

  /** In a punctual run (no timeout comes while its job waits in its FIFO) in which no job with clients is
      canceled and no result is lost to a persistent queue that fails to take its job out, at most one
      terminal result is accepted per job, and a client hears nothing of its job after a terminal
      packet. */
  lemma OneEnding(cfg: Config, x: Phase, t: State, i: nat, k: nat)
    requires Reached(cfg, x, t) && x.traced && i < k < |t.out|
    ensures t.out[i].Accepted? && t.out[k].Accepted? ==> t.out[i].job != t.out[k].job
    ensures t.out[i].Work? && Terminal(t.out[i].kind) && t.out[k].Work? ==> t.out[i].client != t.out[k].client
  {
    hide Reached, ListsOk, RefsOk, CountsOk, KeysOk, Durable, RetriesOk, TimersOk, WatchOk, Closed, Answered;
    ReachedInv(cfg, x, t);
    assert Follows(t.out[i], t.out[k]);
  }

  /** In a run in which no CANT_DO or RESET_ABILITIES removes a worker with a timed job, and no timeout of
      a dead connection fires (which makes it punctual): a timeout pending on a connection that is not
      dead is about a live job that runs there. */
  lemma TimeoutRuns(cfg: Config, x: Phase, t: State, c: Id)
    requires Reached(cfg, x, t) && x.timed && c in t.cons && !t.cons[c].dead && t.cons[c].timer.Some?
    ensures t.cons[c].timer.value in t.jobs && RunsOn(t, t.cons[c].timer.value, c)
  {
    hide Reached, ListsOk, CountsOk, KeysOk, Durable, RetriesOk, TraceOk, WatchOk, WorkerRefs, ClientRefs, ConRefs,
         JobRefs;
    ReachedInv(cfg, x, t);
  }

  /** In a punctual run in which no dozing connection registers a function, and with `worker_wakeup` 0: a
      queued job that is not due has an epoch timer armed no later than that, and while a
      connection registered for its function dozes, so has one that is due. */
  lemma NobodyOversleeps(cfg: Config, x: Phase, t: State, k: Home, j: Id)
    requires Reached(cfg, x, t) && x.watched && k in t.fifo && j in t.fifo[k]
    ensures j in t.jobs && k.0 in t.fns
    ensures !Due(t.jobs[j], t.clock) || Dozing(t.workers, t.cons, k.0) ==> Armed(t.fns[k.0], t.jobs[j].spec.when)
  {
    hide Reached, ListsOk, RefsOk, CountsOk, KeysOk, Durable, RetriesOk, TraceOk, TimersOk, Dozing;
    ReachedInv(cfg, x, t);
    FifoNames(cfg, t, x);
    FifoKnown(cfg, t, {});
    assert Heeded(t.fns[k.0], t.jobs[j].spec.when, t.clock, Dozing(t.workers, t.cons, k.0));
  }
}
