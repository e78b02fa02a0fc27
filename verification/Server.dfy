/** The server in place: one object whose tables and lists are updated step by step, with the loops
    of the original. Every method does what the function of the same operation says. */
module Server {
  import opened Seqs
  import opened Scheduler
  import opened Tables
  import opened Traces
  import opened Wakeups
  import opened Invariant
  import opened Records
  import opened Notices
  import opened JobOps
  import opened Selection
  import opened Choices
  import opened Commands
  import opened Steps
  import opened Requeues
  import opened Scans
  import opened Endings

  class Server {
    const cfg: Config
    var s: State

    constructor (cfg: Config, store: set<Key>, now: int)
      ensures this.cfg == cfg && s == Init(store, now)
    {
      this.cfg, s := cfg, Init(store, now);
    }

    // Waking

    method SendNoopTo(w: Id) returns (sent: bool)
      modifies this`s
      ensures s == WakeOne(old(s), w) && sent == Wakeable(old(s), w)
    {
      sent := Wakeable(s, w);
      if sent {
        var c := s.workers[w].con;
        s := s.(cons := s.cons[c := s.cons[c].(noopSent := true)]);
        s := s.(out := s.out + [Noop(c)]);
      }
    }

    /** The NOOP loop over the ring of a function, and the turning of the ring. */
    method WakeSleeping(f: Name)
      modifies this`s
      ensures s == Wake(old(s), f, cfg.workerWakeup)
    {
      hide WakeOne, Wakeable;
      var ws, limit := List(s.fnWorkers, f), cfg.workerWakeup;
      var i, sent, more := 0, 0, ws != [];
      ghost var r := WakeLoop(s, ws, limit, 0);
      assert ws[0..] == ws;
      while more
        invariant i <= |ws| && s.fnWorkers == old(s).fnWorkers && (more ==> i < |ws|)
        invariant more ==> var q := WakeLoop(s, ws[i..], limit, sent); r == (q.0, q.1 + i)
        invariant !more ==> r == (s, i)
        decreases |ws| - i
      {
        assert ws[i..][1..] == ws[i + 1..];
        var hit := SendNoopTo(ws[i]);
        if hit { sent := sent + 1; }
        i := i + 1;
        more := i < |ws| && (limit == 0 || sent < limit);
      }
      s := s.(fnWorkers := s.fnWorkers[f := ws[i..] + ws[..i]]);
    }

    // Moving jobs

    method DetachJob(j: Id)
      modifies this`s
      ensures s == Detach(old(s), j)
    {
      hide Remove;
      if j in s.runs && j in s.jobs && s.jobs[j].spec.fn in s.fns {
        var f, w := s.jobs[j].spec.fn, s.runs[j];
        s := s.(running := s.running[w := Remove(List(s.running, w), j)]);
        s := s.(runs := s.runs - {j});
        s := s.(fns := s.fns[f := s.fns[f].(jobRunning := s.fns[f].jobRunning - 1)]);
      }
    }

    /** The end of `gearman_server_job_queue`, with `_schedule_epoch_wakeup`. */
    method AppendJob(j: Id)
      modifies this`s
      ensures s == Append(old(s), j)
    {
      if j in s.jobs && s.jobs[j].spec.fn in s.fns {
        var f, k, when := s.jobs[j].spec.fn, HomeOf(s.jobs[j]), s.jobs[j].spec.when;
        s := s.(fifo := s.fifo[k := List(s.fifo, k) + [j]]);
        var fn := s.fns[f].(jobCount := s.fns[f].jobCount + 1);
        if when > 0 && when > s.clock {
          fn := fn.(pending := Insert(fn.pending, when));
          if fn.timer.None? || fn.timer.value > when { fn := fn.(timer := Some(when)); }
        }
        s := s.(fns := s.fns[f := fn]);
      }
    }

    method EnqueueJob(j: Id)
      modifies this`s
      ensures s == Enqueue(cfg, old(s), j)
    {
      hide Wake, Append;
      if j in s.jobs {
        WakeSleeping(s.jobs[j].spec.fn);
        AppendJob(j);
      }
    }

    // Telling clients

    method Send(o: Output)
      modifies this`s
      ensures s == Emit(old(s), o)
    {
      s := s.(out := s.out + [o]);
    }

    /** The fan-out loop over the clients of a job. */
    method TellClients(j: Id, kind: Kind)
      modifies this`s
      ensures s == FanOut(old(s), List(old(s).jobClients, j), j, kind)
    {
      hide Packet, Accepts;
      var cls := List(s.jobClients, j);
      var i := 0;
      ghost var r := FanOut(s, cls, j, kind);
      assert cls[0..] == cls;
      while i < |cls|
        invariant i <= |cls| && r == FanOut(s, cls[i..], j, kind)
      {
        assert cls[i..][1..] == cls[i + 1..];
        Send(Packet(s, cls[i], j, kind));
        i := i + 1;
      }
    }

    // Freeing

    /** `gearman_server_client_free` */
    method FreeClientOf(cl: Id)
      modifies this`s
      ensures s == FreeClient(old(s), cl)
    {
      hide Remove;
      if cl in s.clients && s.clients[cl].job in s.jobs {
        var c, j := s.clients[cl].con, s.clients[cl].job;
        s := s.(conClients := s.conClients[c := Remove(List(s.conClients, c), cl)]);
        s := s.(jobClients := s.jobClients[j := Remove(List(s.jobClients, j), cl)]);
        s := s.(clients := s.clients - {cl});
        if s.jobClients[j] == [] { s := s.(jobs := s.jobs[j := s.jobs[j].(ignore := true, queued := false)]); }
      }
    }

    /** The loop of `gearman_server_job_free` over the clients of a job: the first one goes until there is
        none. */
    method FreeJobClients(j: Id, ghost x: Phase)
      requires Inv(cfg, s, x) && j in s.jobs
      modifies this`s
      ensures s == FreeClients(old(s), List(old(s).jobClients, j))
    {
      hide Inv, FreeClient;
      ghost var r := FreeClients(s, List(s.jobClients, j));
      while List(s.jobClients, j) != []
        invariant Inv(cfg, s, x) && j in s.jobs && r == FreeClients(s, List(s.jobClients, j))
        decreases |List(s.jobClients, j)|
      {
        HeadClient(cfg, s, x, j);
        FreeClientInv(cfg, s, x, s.jobClients[j][0]);
        FreeClientOf(s.jobClients[j][0]);
      }
    }

    method UnlinkJob(j: Id)
      modifies this`s
      ensures s == Unlink(cfg, old(s), j)
    {
      hide Remove, Bucket;
      if j in s.jobs && s.jobs[j].spec.fn in s.fns {
        var f, u, h := s.jobs[j].spec.fn, Bucket(cfg, s.jobs[j].spec.uniqueKey), Bucket(cfg, s.jobs[j].spec.handleKey);
        s := s.(fns := s.fns[f := s.fns[f].(jobTotal := s.fns[f].jobTotal - 1)]);
        s := s.(jobClients := s.jobClients - {j});
        s := s.(uniqueIx := s.uniqueIx[u := Remove(List(s.uniqueIx, u), j)]);
        s := s.(handleIx := s.handleIx[h := Remove(List(s.handleIx, h), j)]);
        s := s.(jobs := s.jobs - {j});
      }
    }

    /** `gearman_server_con_delete_timeout` */
    method CancelTimeout(j: Id)
      modifies this`s
      ensures s == Untimed(old(s), j)
    {
      if j in s.runs && s.runs[j] in s.workers && s.workers[s.runs[j]].con in s.cons {
        var c := s.workers[s.runs[j]].con;
        s := s.(cons := s.cons[c := s.cons[c].(timer := None)]);
      }
    }

    /** `gearman_server_job_free` */
    method FreeJobAt(j: Id, ghost x: Phase)
      requires Inv(cfg, s, x) && x.spent <= {j} && (x.floating == {j} || (x.floating == {} && j in s.runs))
      modifies this`s
      ensures s == FreeJob(cfg, old(s), j) && Inv(cfg, s, x.(floating := {}, spent := {}))
    {
      hide Inv, Untimed, FreeClients, Detach, Unlink;
      FreeJobInv(cfg, s, x, j);
      Floating(cfg, s, x, j);
      UntimedInv(cfg, s, x, j);
      CancelTimeout(j);
      FreeJobClients(j, x.(quiet := x.quiet + {j}));
      DetachJob(j);
      UnlinkJob(j);
    }

    method StoreDone(j: Id)
      modifies this`s
      ensures s == QueueDone(old(s), j)
    {
      if j in s.jobs && s.jobs[j].queued { s := s.(store := s.store - {KeyOf(s.jobs[j])}); }
    }

    // Queueing

    /** A job that was retried often enough is dropped. */
    method DropJob(j: Id, ghost x: Phase)
      requires Inv(cfg, s, x) && x.floating == {} && x.spent == {j} && j in s.runs
      requires x.traced ==> forall cl :: cl in List(s.jobClients, j) ==> !Closed(s.out, cl)
      modifies this`s
      ensures s == Drop(cfg, old(s), j) && Inv(cfg, s, x.(spent := {}))
    {
      hide Inv, FanOut, QueueDone, FreeJob, Closed;
      Floating(cfg, s, x, j);
      FanOutInv(cfg, s, x, j, Fail);
      assert {j} + {j} == {j};
      TellClients(j, Fail);
      QueueDoneInv(cfg, s, x, j);
      StoreDone(j);
      FreeJobAt(j, x);
    }

    method CountRetry(j: Id)
      requires j in s.jobs
      modifies this`s
      ensures s == Retried(old(s), j)
    {
      s := s.(jobs := s.jobs[j := Again(s.jobs[j])]);
    }

    /** `gearman_server_job_queue` for a job that a worker runs: it goes to the end of its FIFO while it has
        retries to spare, and fails otherwise. */
    method RequeueJob(j: Id, ghost x: Phase)
      requires Inv(cfg, s, x) && x.floating == {} && x.spent == {} && j in s.runs && (x.timed ==> j in x.quiet)
      modifies this`s
      ensures s == JobQueue(cfg, old(s), j) && Inv(cfg, s, x) && Settled(cfg, old(s), s, j)
    {
      hide Inv, Again, Exhausted, Drop, Detach, Enqueue, Closed, Retried, Settled;
      WeakenInv(cfg, s, x, BARE);
      QueuesAgain(cfg, s, BARE, j);
      JobQueueInv(cfg, s, x, j);
      Floating(cfg, s, x, j);
      if x.traced { Unclosed(cfg, s, x, j); }
      RetriedSpent(cfg, s, x, j);
      CountRetry(j);
      if Exhausted(cfg, s.jobs[j].retries) {
        DropJob(j, x.(spent := {j}));
      } else {
        DetachJob(j);
        EnqueueJob(j);
      }
    }

    // Workers

    /** The loop of `gearman_server_worker_free`: as long as the worker runs something, its first job is
        queued again. */
    method RequeueRunning(w: Id, ghost x: Phase)
      requires Inv(cfg, s, x) && x.floating == {} && x.spent == {}
      requires x.timed ==> forall j :: j in s.runs && s.runs[j] == w ==> j in x.quiet
      modifies this`s
      ensures s == RequeueAll(cfg, old(s), List(old(s).running, w)) && Inv(cfg, s, x)
      ensures List(s.running, w) == [] && s.workers == old(s).workers
    {
      hide Inv, JobQueue, NoDup, Life, Accepts;
      ghost var r := RequeueAll(cfg, s, List(s.running, w));
      while List(s.running, w) != []
        invariant Inv(cfg, s, x) && r == RequeueAll(cfg, s, List(s.running, w))
        invariant x.timed ==> forall j :: j in s.runs && s.runs[j] == w ==> j in x.quiet
        invariant s.workers == old(s).workers
        decreases |List(s.running, w)|
      {
        var j := s.running[w][0];
        RunningList(cfg, s, x, w);
        assert j in List(s.running, w);
        Floating(cfg, s, x, j);
        JobQueueFrame(cfg, s, j);
        NextRunning(cfg, s, x, w);
        RequeueJob(j, x);
      }
    }

    method RemoveWorker(w: Id)
      modifies this`s
      ensures s == DelWorker(old(s), w)
    {
      hide Remove;
      if w in s.workers {
        var c, f := s.workers[w].con, s.workers[w].fn;
        s := s.(conWorkers := s.conWorkers[c := Remove(List(s.conWorkers, c), w)]);
        s := s.(fnWorkers := s.fnWorkers[f := Remove(List(s.fnWorkers, f), w)]);
        s := s.(running := s.running - {w});
        s := s.(workers := s.workers - {w});
      }
    }

    /** `gearman_server_worker_free` */
    method FreeWorkerAt(w: Id, ghost x: Phase)
      requires Inv(cfg, s, x) && x.floating == {} && x.spent == {} && w in s.workers
      requires x.timed ==> forall j :: j in s.runs && s.runs[j] == w ==> j in x.quiet
      modifies this`s
      ensures s == FreeWorker(cfg, old(s), w) && Inv(cfg, s, x) && FreedOf(old(s), s, w)
    {
      hide Inv, RequeueAll, DelWorker, Life, Accepts;
      FreeWorkerInv(cfg, s, x, w);
      RequeueRunning(w, x);
      RemoveWorker(w);
    }

    /** Workers are freed one after the other. */
    method FreeWorkersOf(ws: seq<Id>, ghost x: Phase)
      requires Inv(cfg, s, x) && x.floating == {} && x.spent == {}
      requires NoDup(ws) && forall w :: w in ws ==> w in s.workers
      requires x.timed ==> forall j :: j in s.runs && s.runs[j] in ws ==> j in x.quiet
      modifies this`s
      ensures s == FreeWorkers(cfg, old(s), ws) && Inv(cfg, s, x)
    {
      hide Inv, FreeWorker, Life, Accepts;
      ghost var r := FreeWorkers(cfg, s, ws);
      var i := 0;
      assert ws[0..] == ws;
      while i < |ws|
        invariant i <= |ws| && Inv(cfg, s, x) && r == FreeWorkers(cfg, s, ws[i..])
        invariant forall k :: i <= k < |ws| ==> ws[k] in s.workers
        invariant x.timed ==> forall j :: j in s.runs && s.runs[j] in ws ==> j in x.quiet
      {
        assert ws[i..][1..] == ws[i + 1..];
        FreeWorkerAt(ws[i], x);
        i := i + 1;
      }
    }

    // Searching

    /** `gearman_server_job_get`: the loop over a hash chain. */
    method FindByHandle(handle: string, owner: Option<Id>) returns (found: Option<Id>)
      ensures found == JobGet(cfg, s, handle, owner)
    {
      var key := cfg.hash(handle);
      var chain := List(s.handleIx, Bucket(cfg, key));
      ghost var p := (job: Job) => job.spec.handleKey == key && job.spec.handle == handle;
      var i := 0;
      found := None;
      assert chain[0..] == chain;
      while i < |chain| && found.None?
        invariant i <= |chain|
        invariant if found.Some? then found == Find(s.jobs, chain, p)
                    else Find(s.jobs, chain[i..], p) == Find(s.jobs, chain, p)
      {
        assert chain[i..][1..] == chain[i + 1..];
        var j := chain[i];
        if j in s.jobs && s.jobs[j].spec.handleKey == key && s.jobs[j].spec.handle == handle { found := Some(j); }
        i := i + 1;
      }
      if found.Some? && owner.Some? && !RunsOn(s, found.value, owner.value) { found := None; }
    }

    /** `_server_job_get_unique` */
    method FindByUnique(key: nat, f: Name, text: string, byData: bool) returns (found: Option<Id>)
      ensures found == GetUnique(cfg, s, key, f, text, byData)
    {
      var chain := List(s.uniqueIx, Bucket(cfg, key));
      ghost var p := (job: Job) => job.spec.fn == f && job.spec.uniqueKey == key
          && (if byData then job.spec.data == text else job.spec.unique == text);
      var i := 0;
      found := None;
      assert chain[0..] == chain;
      while i < |chain| && found.None?
        invariant i <= |chain|
        invariant if found.Some? then found == Find(s.jobs, chain, p)
                    else Find(s.jobs, chain[i..], p) == Find(s.jobs, chain, p)
      {
        assert chain[i..][1..] == chain[i + 1..];
        var j := chain[i];
        if j in s.jobs && s.jobs[j].spec.fn == f && s.jobs[j].spec.uniqueKey == key
            && (if byData then s.jobs[j].spec.data == text else s.jobs[j].spec.unique == text) {
          found := Some(j);
        }
        i := i + 1;
      }
    }

    method FirstDueOf(q: seq<Id>) returns (i: nat)
      ensures i == FirstDue(s.jobs, q, s.clock)
    {
      i := 0;
      assert q[0..] == q;
      while i < |q| && !(q[i] in s.jobs && Due(s.jobs[q[i]], s.clock))
        invariant i <= |q| && FirstDue(s.jobs, q, s.clock) == i + FirstDue(s.jobs, q[i..], s.clock)
      {
        assert q[i..][1..] == q[i + 1..];
        i := i + 1;
      }
    }

    // Taking a job

    /** The inner loop of `gearman_server_job_take` over the workers of a connection. */
    method ScanWorkers(c: Id, p: Priority) returns (found: Option<Id>)
      requires !ScanHangs(cfg, s, List(s.conWorkers, c), p)
      modifies this`s
      ensures s == Rotated(cfg, old(s), c, p) && found == Scan(cfg, old(s), List(old(s).conWorkers, c), p).1
    {
      hide Scan, ScanHangs, Classify;
      var ws, i := List(s.conWorkers, c), 0;
      found := None;
      ghost var r := Scan(cfg, s, ws, p);
      ghost var n := Finishes(cfg, s, p, ws);
      ghost var k := At(ws, 0);
      while i < |ws| && found.None?
        invariant s == old(s) && Reaches(cfg, s, p, k, n, r)
        invariant k == if found.Some? then Hit(ws, found.value) else At(ws, i)
        decreases n
      {
        var w := ws[i];
        k, n := Turn(cfg, s, p, k), n - 1;
        if Classify(s, w, p).Skip? {
          i := i + 1;
        } else {
          if Classify(s, w, p).Ready? { found := Some(w); }
          var last := i == |ws| - 1;
          if cfg.roundRobin && (found.Some? || !last) { ws := Moved(ws, i); }
          else { i := i + 1; }
        }
      }
      Halted(cfg, s, p, k, n);
      s := s.(conWorkers := s.conWorkers[c := ws]);
    }

    /** The first due job of a FIFO is given to a worker. */
    method AttachJob(k: Home, i: nat, w: Id)
      modifies this`s
      ensures s == Attach(old(s), k, i, w)
    {
      hide RemoveAt;
      if i < |List(s.fifo, k)| && k.0 in s.fns {
        var f, j := k.0, s.fifo[k][i];
        s := s.(fifo := s.fifo[k := RemoveAt(s.fifo[k], i)]);
        s := s.(runs := s.runs[j := w]);
        s := s.(running := s.running[w := [j] + List(s.running, w)]);
        s := s.(fns := s.fns[f := s.fns[f].(jobCount := s.fns[f].jobCount - 1, jobRunning := s.fns[f].jobRunning + 1)]);
      }
    }

    /** The loops of `gearman_server_job_take` over priorities and workers. */
    method PickJob(c: Id) returns (j: Option<Id>)
      requires !PickHangs(cfg, s, c, PRIORITIES)
      modifies this`s
      ensures (s, j) == Pick(cfg, old(s), c, PRIORITIES)
    {
      hide Scan, ScanHangs, FirstDue, Attach;
      var n := 0;
      j := None;
      assert PRIORITIES[0..] == PRIORITIES;
      while n < |PRIORITIES| && j.None?
        invariant n <= |PRIORITIES|
        invariant if j.Some? then (s, j) == Pick(cfg, old(s), c, PRIORITIES)
                  else
                    && Pick(cfg, s, c, PRIORITIES[n..]) == Pick(cfg, old(s), c, PRIORITIES)
                    && !PickHangs(cfg, s, c, PRIORITIES[n..])
      {
        var p := PRIORITIES[n];
        assert PRIORITIES[n..][1..] == PRIORITIES[n + 1..] && PRIORITIES[n..][0] == p;
        ghost var t := s;
        Finds(cfg, s, List(s.conWorkers, c), p);
        var found := ScanWorkers(c, p);
        if found.Some? {
          var k := (s.workers[found.value].fn, p);
          var i := FirstDueOf(s.fifo[k]);
          j := Some(s.fifo[k][i]);
          AttachJob(k, i, found.value);
        }
        n := n + 1;
      }
    }

    /** `gearman_server_job_take`: ignored jobs that are picked are freed, and the search starts over. */
    method TakeJob(c: Id, ghost x: Phase) returns (j: Option<Id>)
      requires Inv(cfg, s, x) && x.floating == {} && x.spent == {} && !TakeHangs(cfg, s, c)
      modifies this`s
      ensures (s, j) == Take(cfg, old(s), c) && Inv(cfg, s, Taken(x, j))
      decreases |s.jobs|
    {
      hide Inv, Pick, PickHangs, FreeJob, Fresh;
      TakeInv(cfg, s, x, c);
      PickInv(cfg, s, x, c, PRIORITIES);
      j := PickJob(c);
      if j.Some? && s.jobs[j.value].ignore {
        FreshRuns(cfg, s, c, j.value);
        Floating(cfg, s, Taken(x, j), j.value);
        FreeJobKeys(cfg, s, j.value);
        Shrinks(old(s), FreeJob(cfg, s, j.value), j.value);
        FreeJobAt(j.value, Taken(x, j));
        ForgetInv(cfg, s, x, j.value);
        j := TakeJob(c, x);
      }
    }

    /** The loops of `gearman_server_job_peek` over workers and priorities. */
    method LookForJob(c: Id) returns (j: Option<Id>)
      ensures j == Look(s, List(s.conWorkers, c))
    {
      hide LookAt;
      var ws, i := List(s.conWorkers, c), 0;
      j := None;
      assert ws[0..] == ws;
      while i < |ws| && j.None?
        invariant i <= |ws|
        invariant if j.Some? then j == Look(s, ws) else Look(s, ws[i..]) == Look(s, ws)
      {
        assert ws[i..][1..] == ws[i + 1..];
        var w := ws[i];
        if w in s.workers && s.workers[w].fn in s.fns && s.fns[s.workers[w].fn].jobCount != 0 { j := LookAtWorker(w); }
        i := i + 1;
      }
    }

    method LookAtWorker(w: Id) returns (j: Option<Id>)
      requires w in s.workers
      ensures j == LookAt(s, w, PRIORITIES)
    {
      hide FirstDue;
      var n := 0;
      j := None;
      assert PRIORITIES[0..] == PRIORITIES;
      while n < |PRIORITIES| && j.None?
        invariant n <= |PRIORITIES|
        invariant if j.Some? then j == LookAt(s, w, PRIORITIES)
                    else LookAt(s, w, PRIORITIES[n..]) == LookAt(s, w, PRIORITIES)
      {
        assert PRIORITIES[n..][1..] == PRIORITIES[n + 1..];
        var q := List(s.fifo, (s.workers[w].fn, PRIORITIES[n]));
        var i := FirstDueOf(q);
        if i < |q| { j := Some(q[i]); }
        n := n + 1;
      }
    }

    /** `gearman_server_job_peek` */
    method PeekJob(c: Id, ghost x: Phase) returns (j: Option<Id>)
      requires Inv(cfg, s, x) && x.floating == {} && x.spent == {} && !PeekHangs(cfg, s, c)
      modifies this`s
      ensures (s, j) == Peek(cfg, old(s), c) && Inv(cfg, s, x)
      decreases |s.jobs|
    {
      hide Inv, Look, Take, TakeHangs, FreeJob, Fresh;
      PeekInv(cfg, s, x, c);
      j := LookForJob(c);
      if j.Some? && j.value in s.jobs && s.jobs[j.value].ignore {
        var job := s.jobs[j.value].(ignore := false);
        FlagInv(cfg, s, x, j.value, job);
        s := s.(jobs := s.jobs[j.value := job]);
        TakeInv(cfg, s, x, c);
        var t := TakeJob(c, x);
        if t.Some? {
          FreshRuns(cfg, s, c, t.value);
          Floating(cfg, s, Taken(x, t), t.value);
          FreeJobKeys(cfg, s, t.value);
          Shrinks(old(s), FreeJob(cfg, s, t.value), t.value);
          FreeJobAt(t.value, Taken(x, t));
          ForgetInv(cfg, s, x, t.value);
          j := PeekJob(c, x);
        }
      }
    }

    // Adding a job

    method EnsureFunction(f: Name)
      modifies this`s
      ensures s == EnsureFn(old(s), f)
    {
      if f !in s.fns { s := s.(fns := s.fns[f := NewFn]); }
    }

    method CreateJob(job: Job)
      modifies this`s
      ensures s == Create(cfg, old(s), job)
    {
      hide Bucket;
      if job.spec.fn in s.fns {
        var f, j := job.spec.fn, s.nextJob;
        var u, h := Bucket(cfg, job.spec.uniqueKey), Bucket(cfg, job.spec.handleKey);
        s := s.(fns := s.fns[f := s.fns[f].(jobTotal := s.fns[f].jobTotal + 1)]);
        s := s.(nextJob := j + 1);
        s := s.(jobs := s.jobs[j := job]);
        s := s.(uniqueIx := s.uniqueIx[u := [j] + List(s.uniqueIx, u)]);
        s := s.(handleIx := s.handleIx[h := [j] + List(s.handleIx, h)]);
      }
    }

    method RecordJob(j: Id, origin: Origin)
      modifies this`s
      ensures s == Record(old(s), j, origin)
    {
      if j in s.jobs && !origin.Foreground? {
        s := s.(jobs := s.jobs[j := s.jobs[j].(queued := true)]);
        if origin.Background? { s := s.(store := s.store + {KeyOf(s.jobs[j])}); }
      }
    }

    /** `gearman_server_job_add_reducer` */
    method AddJob(f: Name, u: string, data: string, p: Priority, when: int, origin: Origin, ghost x: Phase)
        returns (r: AddResult)
      requires Inv(cfg, s, x) && x.floating == {} && x.spent == {}
      requires origin.Replayed? ==> (Truncate(CString(u), MAX_UNIQUE_SIZE - 1), |u|, f) in s.store
      modifies this`s
      ensures (s, r) == JobAdd(cfg, old(s), f, u, data, p, when, origin) && Inv(cfg, s, x)
    {
      hide Inv, EnsureFn, GetUnique, Limited, Create, FreeJob, Record, Enqueue, Truncate, CString, NewJob;
      JobAddInv(cfg, s, x, f, u, data, p, when, origin);
      EnsureFnInv(cfg, s, x, f);
      EnsureFunction(f);
      var found := None;
      if u != "" && !(u == "-" && data == "") {
        found := FindByUnique(UniqueKey(cfg, u, data), f, if u == "-" then data else CString(u), u == "-");
      }
      if found.Some? {
        r := Exists(found.value);
      } else if Limited(s.fns[f], p) {
        r := Full;
      } else {
        var j := s.nextJob;
        NewJobInv(cfg, s, x, f, u, data, p, when);
        CreateJob(NewJob(cfg, j, f, u, data, p, when));
        if origin == Background(false) {
          FreeJobAt(j, x.(floating := {j}));
          r := StoreFailed;
        } else {
          RecordJob(j, origin);
          EnqueueJob(j);
          r := Added(j);
        }
      }
    }

    // Commands

    method SetConnection(c: Id, con: Con)
      modifies this`s
      ensures s == SetCon(old(s), c, con)
    {
      s := s.(cons := s.cons[c := con]);
    }

    /** CAN_DO: `gearman_server_worker_add` */
    method AddWorkerFor(c: Id, f: Name, timeout: int)
      modifies this`s
      ensures s == AddWorker(old(s), c, f, timeout)
    {
      hide EnsureFn;
      if c in s.cons {
        EnsureFunction(f);
        var w := s.nextWorker;
        s := s.(workers := s.workers[w := Worker(c, f, timeout)], nextWorker := w + 1);
        s := s.(conWorkers := s.conWorkers[c := [w] + List(s.conWorkers, c)]);
        s := s.(fnWorkers := s.fnWorkers[f := List(s.fnWorkers, f) + [w]]);
      }
    }

    /** `gearman_server_client_add` */
    method AddClientFor(c: Id, j: Id)
      modifies this`s
      ensures s == AddClient(old(s), c, j)
    {
      if c in s.cons && j in s.jobs {
        var cl := s.nextClient;
        s := s.(clients := s.clients[cl := Client(c, j)], nextClient := cl + 1);
        s := s.(conClients := s.conClients[c := [cl] + List(s.conClients, c)]);
        s := s.(jobClients := s.jobClients[j := [cl] + List(s.jobClients, j)]);
      }
    }

    method Submit(c: Id, f: Name, u: string, data: string, p: Priority, when: int, origin: Origin, ghost x: Phase)
      requires Inv(cfg, s, x) && Steady(x) && !origin.Replayed?
      modifies this`s
      ensures s == SubmitJob(cfg, old(s), c, f, u, data, p, when, origin)
    {
      hide Inv, JobAdd, AddClient;
      if |u| > MAX_UNIQUE_SIZE {
        Send(Error(c));
      } else {
        var r := AddJob(f, u, data, p, when, origin, x);
        if r.Full? || r.StoreFailed? {
          Send(Error(c));
        } else {
          if origin.Foreground? { AddClientFor(c, r.job); }
          Send(Created(c, r.job));
        }
      }
    }

    /** The loop of `gearman_server_con_add_job_timeout` for the first worker of a function. */
    method FirstWorker(c: Id, f: Name) returns (w: Option<Id>)
      ensures var ws := Registered(s, c, f); w == if ws == [] then None else Some(ws[0])
      ensures w.Some? ==> w.value in s.workers
    {
      var t, ws, i := s, List(s.conWorkers, c), 0;
      assert ws[0..] == ws;
      while i < |ws| && !(ws[i] in t.workers && t.workers[ws[i]].fn == f)
        invariant i <= |ws| && Filter(w => w in t.workers && t.workers[w].fn == f, ws[i..]) == Registered(t, c, f)
      {
        assert ws[i..][1..] == ws[i + 1..];
        i := i + 1;
      }
      w := if i < |ws| then Some(ws[i]) else None;
    }

    method ArmTimeout(c: Id, j: Id)
      modifies this`s
      ensures s == ArmTimer(old(s), c, j)
    {
      hide Registered;
      if c in s.cons && j in s.jobs {
        var w := FirstWorker(c, s.jobs[j].spec.fn);
        var timed := w.Some? && s.workers[w.value].timeout > 0;
        SetConnection(c, s.cons[c].(timer := if timed then Some(j) else None));
      }
    }

    /** GRAB_JOB */
    method Grab(c: Id, sendOk: bool, ghost x: Phase)
      requires Inv(cfg, s, x) && Steady(x) && c in Live(s.cons) && !TakeHangs(cfg, Awake(s, c), c)
      modifies this`s
      ensures s == GrabJob(cfg, old(s), c, sendOk)
    {
      hide Inv, Take, TakeHangs, ArmTimer, JobQueue, Fresh;
      AwakeInv(cfg, s, x, c);
      TakeInv(cfg, Awake(s, c), x, c);
      SetConnection(c, s.cons[c].(sleeping := false, noopSent := false));
      var j := TakeJob(c, x);
      if j.None? {
        Send(NoJob(c));
      } else if sendOk {
        Send(Assign(c, j.value));
        ArmTimeout(c, j.value);
      } else {
        FreshRuns(cfg, s, c, j.value);
        RequeueJob(j.value, Taken(x, j));
      }
    }

    /** PRE_SLEEP */
    method PreSleepOf(c: Id, ghost x: Phase)
      requires Inv(cfg, s, x) && Steady(x) && !PeekHangs(cfg, s, c)
      modifies this`s
      ensures s == Sleep(cfg, old(s), c)
    {
      hide Inv, Peek, PeekHangs;
      var j := PeekJob(c, x);
      if j.Some? {
        Send(Noop(c));
      } else if c in s.cons {
        SetConnection(c, s.cons[c].(sleeping := true, timer := None));
      }
    }

    /** The result of a job is passed on; unless the persistent queue fails, the job is done with. */
    method FinishJob(c: Id, j: Id, kind: Kind, storeOk: bool, ghost x: Phase)
      requires Inv(cfg, s, x) && Steady(x) && Terminal(kind) && j in s.jobs && j in s.runs
      modifies this`s
      ensures var t := FanOut(Emit(old(s), Accepted(c, j)), List(old(s).jobClients, j), j, kind);
              s == if old(s).jobs[j].queued && !storeOk then t else FreeJob(cfg, QueueDone(t, j), j)
    {
      hide Inv, FanOut, QueueDone, FreeJob, Closed;
      ghost var y := x.(spent := {j});
      AcceptedInv(cfg, s, x, c, j);
      Send(Accepted(c, j));
      FanOutInv(cfg, s, y, j, kind);
      assert {j} + {j} == {j};
      TellClients(j, kind);
      if !(s.jobs[j].queued && !storeOk) {
        QueueDoneInv(cfg, s, y, j);
        StoreDone(j);
        FreeJobAt(j, y);
      }
    }

    /** WORK_COMPLETE, WORK_EXCEPTION and WORK_FAIL. */
    method Finish(c: Id, handle: string, kind: Kind, storeOk: bool, ghost x: Phase)
      requires Inv(cfg, s, x) && Steady(x) && Terminal(kind)
      modifies this`s
      ensures s == WorkResult(cfg, old(s), c, handle, kind, storeOk)
    {
      hide Inv, FanOut, QueueDone, FreeJob, JobGet;
      var j := None;
      if !(kind == Fail && |handle| >= JOB_HANDLE_SIZE) {
        j := FindByHandle(handle, Some(c));
        JobGets(cfg, s, handle, Some(c));
      }
      if j.None? { Send(Error(c)); } else { FinishJob(c, j.value, kind, storeOk, x); }
    }

    /** WORK_DATA, WORK_WARNING and WORK_STATUS. */
    method PassOn(c: Id, handle: string, kind: Kind)
      modifies this`s
      ensures s == WorkUpdate(cfg, old(s), c, handle, kind)
    {
      hide FanOut, JobGet;
      var j := FindByHandle(handle, Some(c));
      JobGets(cfg, s, handle, Some(c));
      if j.None? { Send(Error(c)); } else { TellClients(j.value, kind); }
    }

    /** `gearman_server_job_cancel`: the clients of the job are told that it failed and stay attached, the
        job keeps its place, and is ignored from now on. */
    method CancelByHandle(handle: string, storeOk: bool)
      modifies this`s
      ensures s == CancelJob(cfg, old(s), handle, storeOk)
      ensures var j := JobGet(cfg, old(s), handle, None);
              if j.Some? then Calls(old(s), s, j.value, storeOk) else s == old(s)
    {
      hide FanOut, JobGet, QueueDone, Calls;
      var j := FindByHandle(handle, None);
      JobGets(cfg, s, handle, None);
      if j.Some? { CancelCalls(cfg, s, handle, storeOk, j.value); }
      if j.Some? {
        TellClients(j.value, Fail);
        if !(s.jobs[j.value].queued && !storeOk) {
          StoreDone(j.value);
          s := s.(jobs := s.jobs[j.value := s.jobs[j.value].(ignore := true, queued := false)]);
        }
      }
    }

    /** `_epoch_wakeup_cb`: wake, forget the past, and set the timer for what comes next. */
    method FireEpoch(f: Name)
      modifies this`s
      ensures s == EpochFire(cfg, old(s), f)
    {
      hide Wake;
      if f in s.fns {
        s := s.(fns := s.fns[f := s.fns[f].(timer := None)]);
        WakeSleeping(f);
        var left := s.fns[f].pending;
        while left != [] && left[0] <= s.clock
          invariant Prune(left, s.clock) == Prune(s.fns[f].pending, s.clock)
          decreases |left|
        {
          left := left[1..];
        }
        var fn := s.fns[f].(pending := left);
        if left != [] && left[0] > 0 { fn := Schedule(fn, left[0], s.clock); }
        s := s.(fns := s.fns[f := fn]);
      }
    }

    /** The clients of a dead connection: the first one goes until there is none. */
    method FreeConClientsOf(c: Id, ghost x: Phase)
      requires Inv(cfg, s, x)
      modifies this`s
      ensures s == FreeClients(old(s), List(old(s).conClients, c))
    {
      hide Inv, FreeClient;
      ghost var r := FreeClients(s, List(s.conClients, c));
      while List(s.conClients, c) != []
        invariant Inv(cfg, s, x) && r == FreeClients(s, List(s.conClients, c))
        decreases |List(s.conClients, c)|
      {
        HeadConClient(cfg, s, x, c);
        FreeClientInv(cfg, s, x, s.conClients[c][0]);
        FreeClientOf(s.conClients[c][0]);
      }
    }

    /** What `_proc` does with a dead connection. */
    method CleanUpCon(c: Id, ghost x: Phase)
      requires Inv(cfg, s, x) && Steady(x) && c in s.cons && s.cons[c].dead
      modifies this`s
      ensures s == CleanUp(cfg, old(s), c)
      ensures Inv(cfg, s, x) && Unused(s, c) && c in s.cons && s.cons[c].removed
    {
      hide Inv, FreeWorkers, FreeClients, NoDup, Life, Accepts, Unused;
      CleanUpInv(cfg, s, x, c);
      Release(c, List(s.conWorkers, c), x);
      FreeConClientsOf(c, x);
      if c in s.cons { SetConnection(c, s.cons[c].(removed := true)); }
    }

    /** Some workers of a connection are freed; its timeout must not be about a job of theirs. */
    method Release(c: Id, ws: seq<Id>, ghost x: Phase)
      requires Inv(cfg, s, x) && Steady(x) && (x.timed ==> Apart(s, c, ws))
      requires ws == List(s.conWorkers, c) || exists f :: ws == Registered(s, c, f)
      modifies this`s
      ensures s == FreeWorkers(cfg, old(s), ws) && Inv(cfg, s, x)
    {
      hide Inv, FreeWorkers, NoDup, Registered, Apart;
      ConWorkers(cfg, s, x, c);
      if ws != List(s.conWorkers, c) {
        ghost var f :| ws == Registered(s, c, f);
        RegisteredSpec(s, c, f);
      }
      ghost var y := x.(quiet := set j | j in s.runs && s.runs[j] in ws);
      ApartInv(cfg, s, x, c, ws);
      FreeWorkersOf(ws, y);
      WeakenInv(cfg, s, y, x);
    }

    /** A job timeout: a live job that it is about runs, and is queued again. */
    method TimeOut(c: Id, ghost x: Phase)
      requires Inv(cfg, s, x) && Steady(x) && c in s.cons && s.cons[c].timer.Some?
      requires if x.timed then !s.cons[c].dead else Punctual(s, s.cons[c].timer.value)
      modifies this`s
      ensures s == JobQueue(cfg, SetCon(old(s), c, old(s).cons[c].(timer := None)), old(s).cons[c].timer.value)
    {
      hide Inv, JobQueue, RunsOn;
      var j := s.cons[c].timer.value;
      Expired(cfg, s, x, c, j);
      SetConnection(c, s.cons[c].(timer := None));
      Unknown(cfg, s, j);
      if j in s.jobs { RequeueJob(j, if x.timed then x.(quiet := {j}) else x); }
    }

    /** `gearman_server_run_command` */
    method RunCommand(e: Event, ghost x: Phase)
      requires Inv(cfg, s, x) && Steady(x) && Enabled(cfg, s, e) && Allowed(cfg, s, x, e)
      requires e.Submit? || e.Grab? || e.PreSleep? || e.Result? || e.Update?
      modifies this`s
      ensures s == Step(cfg, old(s), e)
    {
      hide Inv, JobAdd, SubmitJob, GrabJob, Sleep, WorkResult, WorkUpdate, TakeHangs, PeekHangs, JobGet, Truncate,
           CString, Apart, Dozes, Punctual;
      match e
      case Submit(c, f, u, d, p, when, origin) => Submit(c, f, u, d, p, when, origin, x);
      case Grab(c, ok) => Grab(c, ok, x);
      case PreSleep(c) => PreSleepOf(c, x);
      case Result(c, h, k, ok) => Finish(c, h, k, ok, x);
      case Update(c, h, k) => PassOn(c, h, k);
    }

    /** The commands that change what a connection can do. */
    method Register(e: Event, ghost x: Phase)
      requires Inv(cfg, s, x) && Steady(x) && Enabled(cfg, s, e) && Allowed(cfg, s, x, e)
      requires e.CanDo? || e.CantDo? || e.ResetAbilities? || e.Exceptions?
      modifies this`s
      ensures s == Step(cfg, old(s), e)
    {
      hide Inv, FreeWorkers, Registered, AddWorker, TakeHangs, PeekHangs, Apart, Dozes, Punctual;
      match e
      case CanDo(c, f, t) => AddWorkerFor(c, f, t);
      case CantDo(c, f) => Release(c, Registered(s, c, f), x);
      case ResetAbilities(c) => Release(c, List(s.conWorkers, c), x);
      case Exceptions(c) => SetConnection(c, s.cons[c].(exceptions := true));
    }

    /** Each step of the server, in place: the commands, the timers, and the coming and going of
        connections. It keeps the invariant, and the guarantees whose conditions are met. */
    method Perform(e: Event, ghost x: Phase)
      requires Inv(cfg, s, x) && Steady(x) && Enabled(cfg, s, e) && Allowed(cfg, s, x, e)
      modifies this`s
      ensures s == Step(cfg, old(s), e) && Inv(cfg, s, x)
    {
      hide Inv, JobAdd, SubmitJob, GrabJob, Sleep, WorkResult, WorkUpdate, CancelJob, EpochFire, CleanUp, FreeWorkers,
           Registered, AddWorker, JobQueue,
           TakeHangs, PeekHangs, JobGet, Apart, Dozes, Punctual, Truncate, CString;
      StepInv(cfg, s, x, e);
      match e
      case Connect(c) => SetConnection(c, NewCon.(exceptions := cfg.exceptions));
      case Disconnect(c) =>
        SetConnection(c, s.cons[c].(dead := true, timer := None, sleeping := false, noopSent := false,
            exceptions := cfg.exceptions));
      case Cleanup(c) => CleanUpCon(c, x);
      case Destroy(c) => s := s.(cons := s.cons - {c});
      case Replay(f, u, d, p, when) => var r := AddJob(f, u, d, p, when, Replayed, x);
      case Cancel(h, ok) => CancelByHandle(h, ok);
      case MaxQueue(f, limits) => if f in s.fns { s := s.(fns := s.fns[f := s.fns[f].(maxQueue := limits)]); }
      case JobTimeout(c) => TimeOut(c, x);
      case EpochTimer(f) => FireEpoch(f);
      case Tick(now) => s := s.(clock := now);
      case CanDo(_, _, _) => Register(e, x);
      case CantDo(_, _) => Register(e, x);
      case ResetAbilities(_) => Register(e, x);
      case Exceptions(_) => Register(e, x);
      case Submit(_, _, _, _, _, _, _) => RunCommand(e, x);
      case Grab(_, _) => RunCommand(e, x);
      case PreSleep(_) => RunCommand(e, x);
      case Result(_, _, _, _) => RunCommand(e, x);
      case Update(_, _, _) => RunCommand(e, x);
    }
  }

  lemma Unknown(cfg: Config, s: State, j: Id)
    ensures j !in s.jobs ==> JobQueue(cfg, s, j) == s
  {}

  lemma Expired(cfg: Config, s: State, x: Phase, c: Id, j: Id)
    requires Inv(cfg, s, x) && Steady(x) && c in s.cons && s.cons[c].timer == Some(j)
    requires if x.timed then !s.cons[c].dead else Punctual(s, j)
    ensures j in s.jobs ==> j in s.runs
    ensures j in s.jobs ==> Inv(cfg, SetCon(s, c, s.cons[c].(timer := None)), if x.timed then x.(quiet := {j}) else x)
  {
    hide Inv, RunsOn;
    if j in s.jobs {
      DeadFirst(cfg, s, x, c);
      if x.timed {
        TimelyRuns(cfg, s, x, c, j);
        ExpireInv(cfg, s, x, c, j);
      } else {
        CalmInv(cfg, s, x, c, s.cons[c].(timer := None));
      }
    }
  }

  lemma Halted(cfg: Config, s: State, p: Priority, k: Cursor, n: nat)
    requires Over(k)
    ensures Turns(cfg, s, p, k, n) == k
    decreases n
  {
    if n > 0 { Halted(cfg, s, p, k, n - 1); }
  }

  lemma Finds(cfg: Config, s: State, ws: seq<Id>, p: Priority)
    ensures var w := Scan(cfg, s, ws, p).1;
            w.Some? ==> w.value in s.workers && (s.workers[w.value].fn, p) in s.fifo
                        && FirstDue(s.jobs, s.fifo[(s.workers[w.value].fn, p)],
                             s.clock) < |s.fifo[(s.workers[w.value].fn, p)]|
  {
    hide Skips, Waits, FirstDue;
  }

  lemma DetachRuns(s: State, j: Id)
    requires j in s.runs && j in s.jobs && s.jobs[j].spec.fn in s.fns
    ensures Detach(s, j).running == s.running[s.runs[j] := Remove(List(s.running, s.runs[j]), j)]
  {}

  lemma DropRuns(cfg: Config, s: State, j: Id)
    requires j in s.runs && j in s.jobs && s.jobs[j].spec.fn in s.fns
    ensures Drop(cfg, s, j).running == s.running[s.runs[j] := Remove(List(s.running, s.runs[j]), j)]
  {
    hide FanOut, QueueDone, Untimed, FreeClients, Detach, Unlink, Remove;
    var s1 := QueueDone(FanOut(s, List(s.jobClients, j), j, Fail), j);
    DetachRuns(FreeClients(Untimed(s1, j), List(s1.jobClients, j)), j);
  }

  lemma EnqueueRuns(cfg: Config, s: State, j: Id)
    ensures Enqueue(cfg, s, j).running == s.running
  {
    hide Wake, Append;
  }

  /** Once the first job of a worker is queued again, the rest of its list is left. */
  lemma NextRunning(cfg: Config, s: State, x: Phase, w: Id)
    requires Inv(cfg, s, x) && List(s.running, w) != []
    ensures List(JobQueue(cfg, s, s.running[w][0]).running, w) == List(s.running, w)[1..]
  {
    hide Inv, Drop, Detach, Enqueue, Again, Exhausted, Retried, NoDup;
    var j := s.running[w][0];
    RunningList(cfg, s, x, w);
    assert j in List(s.running, w);
    Floating(cfg, s, x, j);
    var t := Retried(s, j);
    DetachRuns(t, j);
    if Exhausted(cfg, t.jobs[j].retries) { DropRuns(cfg, t, j); } else { EnqueueRuns(cfg, Detach(t, j), j); }
  }
}
