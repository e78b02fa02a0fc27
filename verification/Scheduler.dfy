/** The job scheduler as a value: the tables of jobs, functions, workers, connections and
    clients, the lists that tie them together, and what each operation of the server makes of
    them. An operation on an entry that is not in its table leaves the state alone. */
module Scheduler {
  import opened Seqs

  type Id = nat
  type Name = string

  datatype Priority = High | Normal | Low

  /** What of a job never changes. */
  datatype Spec = Spec(
    fn: Name, priority: Priority, when: int,
    handle: string, handleKey: nat,
    unique: string, uniqueLength: nat, uniqueKey: nat, data: string)

  datatype Job = Job(spec: Spec, retries: nat, ignore: bool, queued: bool)

  /** `pending` is the multiset `epoch_pending_whens` in its iteration order. */
  datatype Func = Func(
    jobCount: int, jobTotal: int, jobRunning: int, maxQueue: map<Priority, nat>,
    timer: Option<int>, pending: seq<int>)

  datatype Worker = Worker(con: Id, fn: Name, timeout: int)

  datatype Con = Con(
    sleeping: bool, noopSent: bool, exceptions: bool, timer: Option<Id>, dead: bool, removed: bool)

  datatype Client = Client(con: Id, job: Id)

  datatype Kind = Data | Warning | Status | Complete | Exception | Fail

  predicate Terminal(k: Kind) { k == Complete || k == Exception || k == Fail }

  /** What the server queues for its connections, in order, and the terminal results it
      accepts from workers. */
  datatype Output =
    | Noop(con: Id)
    | NoJob(con: Id)
    | Assign(con: Id, job: Id)
    | Created(con: Id, job: Id)
    | Work(client: Id, job: Id, kind: Kind)
    | Accepted(con: Id, job: Id)
    | Error(con: Id)

  /** The key of a job in the persistent queue. */
  type Key = (string, nat, Name)

  type Home = (Name, Priority)

  /** The lists are read from their heads on: `fnWorkers` are circular, the others linear. */
  datatype State = State(
    jobs: map<Id, Job>,
    runs: map<Id, Id>,                // the worker of a running job
    fns: map<Name, Func>,
    workers: map<Id, Worker>,
    cons: map<Id, Con>,
    clients: map<Id, Client>,
    fifo: map<Home, seq<Id>>,         // the queued jobs of a function and priority
    running: map<Id, seq<Id>>,        // the jobs of a worker
    conWorkers: map<Id, seq<Id>>,     // the workers of a connection
    fnWorkers: map<Name, seq<Id>>,    // the workers of a function
    conClients: map<Id, seq<Id>>,     // the clients of a connection
    jobClients: map<Id, seq<Id>>,     // the clients of a job
    handleIx: map<nat, seq<Id>>,      // hash chains of jobs, by handle
    uniqueIx: map<nat, seq<Id>>,      // and by unique
    store: set<Key>,
    nextJob: Id, nextWorker: Id, nextClient: Id,
    clock: int,
    out: seq<Output>)

  datatype Config = Config(
    roundRobin: bool, jobRetries: int, workerWakeup: nat, exceptions: bool, buckets: nat,
    prefix: string, hash: string -> nat)

  const MAX_UNIQUE_SIZE := 64
  const JOB_HANDLE_SIZE := 64

  // Text

  /** The C string that starts at `u`. */
  function CString(u: string): string {
    if u == "" || u[0] == '\0' then "" else [u[0]] + CString(u[1..])
  }

  function Truncate(t: string, n: nat): string { if |t| < n then t else t[..n] }

  function Decimal(n: nat): string {
    if n < 10 then [('0' as int + n) as char] else Decimal(n / 10) + [('0' as int + n % 10) as char]
  }

  /** `snprintf(job_handle, GEARMAND_JOB_HANDLE_SIZE, "%s:%u", prefix, count)` */
  function Handle(prefix: string, count: nat): string {
    Truncate(prefix + ":" + Decimal(count % 0x1_0000_0000), JOB_HANDLE_SIZE - 1)
  }

  // Queued jobs

  predicate Due(job: Job, now: int) { job.spec.when == 0 || job.spec.when <= now }

  /** The position of the first due job of `q`, or `|q|`. */
  function FirstDue(jobs: map<Id, Job>, q: seq<Id>, now: int): (i: nat)
    ensures i <= |q|
    ensures forall k :: 0 <= k < i ==> !(q[k] in jobs && Due(jobs[q[k]], now))
    ensures i < |q| ==> q[i] in jobs && Due(jobs[q[i]], now)
  {
    if q == [] then 0
    else if q[0] in jobs && Due(jobs[q[0]], now) then 0
    else 1 + FirstDue(jobs, q[1..], now)
  }

  function HomeOf(job: Job): Home { (job.spec.fn, job.spec.priority) }

  function KeyOf(job: Job): Key { (job.spec.unique, job.spec.uniqueLength, job.spec.fn) }

  // Hash chains

  function Bucket(cfg: Config, key: nat): nat { if cfg.buckets == 0 then 0 else key % cfg.buckets }

  /** The first entry of a chain that satisfies `p`. */
  function Find(jobs: map<Id, Job>, chain: seq<Id>, p: Job -> bool): Option<Id> {
    if chain == [] then None
    else if chain[0] in jobs && p(jobs[chain[0]]) then Some(chain[0])
    else Find(jobs, chain[1..], p)
  }

  /** `gearman_server_job_get` */
  function JobGet(cfg: Config, s: State, handle: string, owner: Option<Id>): Option<Id> {
    var key := cfg.hash(handle);
    var found := Find(s.jobs, List(s.handleIx, Bucket(cfg, key)), (job: Job) => job.spec.handleKey == key
        && job.spec.handle == handle);
    if found.None? || owner.None? || RunsOn(s, found.value, owner.value) then found else None
  }

  predicate RunsOn(s: State, j: Id, c: Id) {
    j in s.runs && s.runs[j] in s.workers && s.workers[s.runs[j]].con == c
  }

  /** `_server_job_get_unique` */
  function GetUnique(cfg: Config, s: State, key: nat, f: Name, text: string, byData: bool): Option<Id> {
    Find(s.jobs, List(s.uniqueIx, Bucket(cfg, key)),
         (job: Job) => job.spec.fn == f && job.spec.uniqueKey == key
             && (if byData then job.spec.data == text else job.spec.unique == text))
  }

  // Records

  function SetCon(s: State, c: Id, con: Con): State { s.(cons := s.cons[c := con]) }

  function SetJob(s: State, j: Id, job: Job): State { s.(jobs := s.jobs[j := job]) }

  function SetFn(s: State, f: Name, fn: Func): State { s.(fns := s.fns[f := fn]) }

  function Emit(s: State, o: Output): State { s.(out := s.out + [o]) }

  const NewFn := Func(0, 0, 0, map[], None, [])

  /** `gearman_server_function_get` */
  function EnsureFn(s: State, f: Name): (r: State)
    ensures f in r.fns && r == s.(fns := r.fns)
  {
    if f in s.fns then s else SetFn(s, f, NewFn)
  }

  /** Which connections there are, which are dead and which were cleaned up. */
  function Life(cons: map<Id, Con>): map<Id, (bool, bool)> { map c | c in cons :: (cons[c].dead, cons[c].removed) }

  /** The terminal results accepted so far, in order. */
  function Accepts(out: seq<Output>): seq<Output> {
    if out == [] then [] else
    var n := |out| - 1;
    if out[n].Accepted? then Accepts(out[..n]) + [out[n]] else Accepts(out[..n])
  }

  lemma AcceptsEmit(out: seq<Output>, o: Output)
    ensures Accepts(out + [o]) == if o.Accepted? then Accepts(out) + [o] else Accepts(out)
  {
    assert (out + [o])[..|out|] == out;
  }

  function DeleteTimer(s: State, c: Id): (r: State)
    ensures r == s.(cons := r.cons) && Life(r.cons) == Life(s.cons)
  {
    if c in s.cons then SetCon(s, c, s.cons[c].(timer := None)) else s
  }

  // Epoch timers

  function Insert(q: seq<int>, when: int): seq<int> {
    if q == [] || when < q[0] then [when] + q else [q[0]] + Insert(q[1..], when)
  }

  function Prune(q: seq<int>, now: int): seq<int> {
    if q != [] && q[0] <= now then Prune(q[1..], now) else q
  }

  /** `_schedule_epoch_wakeup` */
  function Schedule(fn: Func, when: int, now: int): Func {
    if when <= now then fn
    else if fn.timer.Some? && fn.timer.value <= when then fn
    else fn.(timer := Some(when))
  }

  // Waking sleeping workers

  predicate Wakeable(s: State, w: Id) {
    && w in s.workers && s.workers[w].con in s.cons
    && s.cons[s.workers[w].con].sleeping && !s.cons[s.workers[w].con].noopSent
  }

  function SendNoop(s: State, c: Id): State {
    if c in s.cons then Emit(SetCon(s, c, s.cons[c].(noopSent := true)), Noop(c)) else s
  }

  function WakeOne(s: State, w: Id): (r: State)
    ensures r == s.(cons := r.cons, out := r.out) && Life(r.cons) == Life(s.cons) && Accepts(r.out) == Accepts(s.out)
  {
    if Wakeable(s, w) then
      AcceptsEmit(s.out, Noop(s.workers[w].con));
      SendNoop(s, s.workers[w].con)
    else s
  }

  /** The NOOP loop over `ws`, with `sent` already sent: the state it leaves and how many
      workers it looked at. */
  function WakeLoop(s: State, ws: seq<Id>, limit: nat, sent: nat): (r: (State, nat))
    ensures r.1 <= |ws|
    ensures r.0 == s.(cons := r.0.cons, out := r.0.out) && Life(r.0.cons) == Life(s.cons)
              && Accepts(r.0.out) == Accepts(s.out)
    decreases |ws|
  {
    if ws == [] then (s, 0) else
    var sent' := if Wakeable(s, ws[0]) then sent + 1 else sent;
    if limit != 0 && sent' >= limit then (WakeOne(s, ws[0]), 1) else
    var r := WakeLoop(WakeOne(s, ws[0]), ws[1..], limit, sent');
    (r.0, r.1 + 1)
  }

  /** The NOOPs for a function, which also turn its circular worker list. */
  function Wake(s: State, f: Name, limit: nat): (r: State)
    ensures r == s.(cons := r.cons, out := r.out, fnWorkers := r.fnWorkers) && Life(r.cons) == Life(s.cons)
    ensures Accepts(r.out) == Accepts(s.out)
  {
    var ws := List(s.fnWorkers, f);
    var (s', k) := WakeLoop(s, ws, limit, 0);
    s'.(fnWorkers := s.fnWorkers[f := ws[k..] + ws[..k]])
  }

  // Moving jobs

  /** A running job leaves its worker. */
  function Detach(s: State, j: Id): (r: State)
    ensures r == s.(runs := r.runs, running := r.running, fns := r.fns) && r.fns.Keys == s.fns.Keys
  {
    if j !in s.runs || j !in s.jobs || s.jobs[j].spec.fn !in s.fns then s else
    var f, w := s.jobs[j].spec.fn, s.runs[j];
    s.(runs := s.runs - {j},
       running := s.running[w := Remove(List(s.running, w), j)],
       fns := s.fns[f := s.fns[f].(jobRunning := s.fns[f].jobRunning - 1)])
  }

  /** A job goes to the end of its FIFO; one that is not due yet arms the epoch timer. */
  function Append(s: State, j: Id): (r: State)
    ensures r == s.(fifo := r.fifo, fns := r.fns)
  {
    if j !in s.jobs || s.jobs[j].spec.fn !in s.fns then s else
    var f, k, when := s.jobs[j].spec.fn, HomeOf(s.jobs[j]), s.jobs[j].spec.when;
    var fn := s.fns[f].(jobCount := s.fns[f].jobCount + 1);
    s.(fifo := s.fifo[k := List(s.fifo, k) + [j]],
       fns := s.fns[f :=
         if when > 0 && when > s.clock
         then Schedule(fn.(pending := Insert(fn.pending, when)), when, s.clock)
         else fn])
  }

  /** The job at position `i` of a FIFO is given to worker `w`. */
  function Attach(s: State, k: Home, i: nat, w: Id): State {
    if i >= |List(s.fifo, k)| || k.0 !in s.fns then s else
    var f, j := k.0, s.fifo[k][i];
    s.(fifo := s.fifo[k := RemoveAt(s.fifo[k], i)],
       runs := s.runs[j := w],
       running := s.running[w := [j] + List(s.running, w)],
       fns := s.fns[f := s.fns[f].(jobCount := s.fns[f].jobCount - 1, jobRunning := s.fns[f].jobRunning + 1)])
  }

  /** A job that is in no list is taken out of the tables. */
  function Unlink(cfg: Config, s: State, j: Id): (r: State)
    ensures r == s.(jobs := r.jobs, jobClients := r.jobClients, fns := r.fns, uniqueIx := r.uniqueIx,
              handleIx := r.handleIx)
    ensures j in s.jobs && s.jobs[j].spec.fn in s.fns ==> r.jobs == s.jobs - {j}
  {
    if j !in s.jobs || s.jobs[j].spec.fn !in s.fns then s else
    var f := s.jobs[j].spec.fn;
    var u, h := Bucket(cfg, s.jobs[j].spec.uniqueKey), Bucket(cfg, s.jobs[j].spec.handleKey);
    s.(jobs := s.jobs - {j},
       jobClients := s.jobClients - {j},
       fns := s.fns[f := s.fns[f].(jobTotal := s.fns[f].jobTotal - 1)],
       uniqueIx := s.uniqueIx[u := Remove(List(s.uniqueIx, u), j)],
       handleIx := s.handleIx[h := Remove(List(s.handleIx, h), j)])
  }

  // Clients

  /** A client leaves the lists of its connection and its job. */
  function DelClient(s: State, cl: Id): State {
    if cl !in s.clients then s else
    var c, j := s.clients[cl].con, s.clients[cl].job;
    s.(clients := s.clients - {cl},
       conClients := s.conClients[c := Remove(List(s.conClients, c), cl)],
       jobClients := s.jobClients[j := Remove(List(s.jobClients, j), cl)])
  }

  /** `gearman_server_client_free`: a job abandoned by its last client is not to run. */
  function FreeClient(s: State, cl: Id): (r: State)
    ensures r.jobs.Keys == s.jobs.Keys && r.fns == s.fns
    ensures forall j :: j in s.jobs ==> r.jobs[j].spec == s.jobs[j].spec
  {
    if cl !in s.clients || s.clients[cl].job !in s.jobs then s else
    var j, t := s.clients[cl].job, DelClient(s, cl);
    if t.jobClients[j] == [] then SetJob(t, j, s.jobs[j].(ignore := true, queued := false)) else t
  }

  function FreeClients(s: State, cls: seq<Id>): (r: State)
    ensures r == s.(jobs := r.jobs, clients := r.clients, conClients := r.conClients, jobClients := r.jobClients)
    ensures r.jobs.Keys == s.jobs.Keys && r.fns == s.fns
    ensures forall j :: j in s.jobs ==> r.jobs[j].spec == s.jobs[j].spec
    decreases |cls|
  {
    if cls == [] then s else FreeClients(FreeClient(s, cls[0]), cls[1..])
  }

  function AddClient(s: State, c: Id, j: Id): (r: State)
    ensures r.out == s.out && r.cons == s.cons
  {
    if c !in s.cons || j !in s.jobs then s else
    var cl := s.nextClient;
    s.(clients := s.clients[cl := Client(c, j)],
       conClients := s.conClients[c := [cl] + List(s.conClients, c)],
       jobClients := s.jobClients[j := [cl] + List(s.jobClients, j)],
       nextClient := cl + 1)
  }

  /** The WORK packet for a client; one that did not ask for exceptions gets a failure instead. */
  function Packet(s: State, cl: Id, j: Id, kind: Kind): (o: Output)
    ensures o.Work? && o.client == cl && (Terminal(o.kind) <==> Terminal(kind))
  {
    var plain := kind == Exception && cl in s.clients && s.clients[cl].con in s.cons
        && !s.cons[s.clients[cl].con].exceptions;
    Work(cl, j, if plain then Fail else kind)
  }

  function FanOut(s: State, cls: seq<Id>, j: Id, kind: Kind): (r: State)
    ensures r == s.(out := r.out) && Accepts(r.out) == Accepts(s.out)
    decreases |cls|
  {
    if cls == [] then s else
    AcceptsEmit(s.out, Packet(s, cls[0], j, kind));
    FanOut(Emit(s, Packet(s, cls[0], j, kind)), cls[1..], j, kind)
  }

  // Jobs

  /** The connection that runs a job loses its timeout. */
  function Untimed(s: State, j: Id): (r: State)
    ensures r == s.(cons := r.cons) && Life(r.cons) == Life(s.cons)
  {
    if j in s.runs && s.runs[j] in s.workers then DeleteTimer(s, s.workers[s.runs[j]].con) else s
  }

  /** `gearman_server_job_free` */
  function FreeJob(cfg: Config, s: State, j: Id): State {
    Unlink(cfg, Detach(FreeClients(Untimed(s, j), List(s.jobClients, j)), j), j)
  }

  lemma FreeJobKeys(cfg: Config, s: State, j: Id)
    requires j in s.jobs && s.jobs[j].spec.fn in s.fns
    ensures FreeJob(cfg, s, j).jobs.Keys == s.jobs.Keys - {j}
  {
    hide Untimed, FreeClients, Detach, Unlink;
  }

  predicate Exhausted(cfg: Config, retries: nat) {
    cfg.jobRetries == 0 || (cfg.jobRetries > 0 && retries == cfg.jobRetries)
  }

  function QueueDone(s: State, j: Id): (r: State)
    ensures r == s.(store := r.store)
  {
    if j in s.jobs && s.jobs[j].queued then s.(store := s.store - {KeyOf(s.jobs[j])}) else s
  }

  function Enqueue(cfg: Config, s: State, j: Id): State {
    if j !in s.jobs then s else Append(Wake(s, s.jobs[j].spec.fn, cfg.workerWakeup), j)
  }

  /** The job failed for good: tell its clients and forget it. */
  function Drop(cfg: Config, s: State, j: Id): State {
    FreeJob(cfg, QueueDone(FanOut(s, List(s.jobClients, j), j, Fail), j), j)
  }

  /** One more retry; `retries` is a `uint8_t`. */
  function Again(job: Job): (r: Job)
    ensures r.spec == job.spec && r.queued == job.queued && r.ignore == job.ignore
  {
    job.(retries := (job.retries + 1) % 256)
  }

  function Retried(s: State, j: Id): (r: State)
    requires j in s.jobs
    ensures r == s.(jobs := r.jobs) && j in r.jobs && r.jobs[j] == Again(s.jobs[j])
  {
    SetJob(s, j, Again(s.jobs[j]))
  }

  /** `gearman_server_job_queue` */
  function JobQueue(cfg: Config, s: State, j: Id): State {
    if j !in s.jobs then s
    else if j !in s.runs then Enqueue(cfg, s, j)
    else if Exhausted(cfg, Retried(s, j).jobs[j].retries) then Drop(cfg, Retried(s, j), j)
    else Enqueue(cfg, Detach(Retried(s, j), j), j)
  }

  /** The key under which `gearman_server_job_add_reducer` looks for an equal job; 0 for none. */
  function UniqueKey(cfg: Config, u: string, data: string): nat {
    if u == "" || (u == "-" && data == "") then 0
    else if u == "-" then cfg.hash(data) else cfg.hash(u)
  }

  function FindEqual(cfg: Config, s: State, f: Name, u: string, data: string): Option<Id> {
    if u == "" || (u == "-" && data == "") then None
    else GetUnique(cfg, s, UniqueKey(cfg, u, data), f, if u == "-" then data else CString(u), u == "-")
  }

  function NewJob(cfg: Config, n: Id, f: Name, u: string, data: string, p: Priority, when: int): Job {
    var handle := Handle(cfg.prefix, n + 1);
    Job(Spec(f, p, when, handle, cfg.hash(handle),
             Truncate(CString(u), MAX_UNIQUE_SIZE - 1), |u|, UniqueKey(cfg, u, data), data),
        0, false, false)
  }

  /** A new job enters the tables; it is in no FIFO yet. */
  function Create(cfg: Config, s: State, job: Job): State {
    if job.spec.fn !in s.fns then s else
    var f, j := job.spec.fn, s.nextJob;
    var u, h := Bucket(cfg, job.spec.uniqueKey), Bucket(cfg, job.spec.handleKey);
    s.(jobs := s.jobs[j := job],
       fns := s.fns[f := s.fns[f].(jobTotal := s.fns[f].jobTotal + 1)],
       uniqueIx := s.uniqueIx[u := [j] + List(s.uniqueIx, u)],
       handleIx := s.handleIx[h := [j] + List(s.handleIx, h)],
       nextJob := j + 1)
  }

  /** A queue limit of 0, or none, is no limit. */
  predicate Limited(fn: Func, p: Priority) {
    p in fn.maxQueue && fn.maxQueue[p] > 0 && fn.jobTotal >= fn.maxQueue[p]
  }

  datatype AddResult = Added(job: Id) | Exists(job: Id) | Full | StoreFailed

  /** Where a new job is recorded: nowhere for a foreground job; a background job is added to
      the persistent queue; one replayed from the queue is there already. */
  datatype Origin = Foreground | Background(storeOk: bool) | Replayed

  function Record(s: State, j: Id, origin: Origin): (r: State)
    ensures r == s.(jobs := r.jobs, store := r.store)
  {
    if j !in s.jobs || origin.Foreground? then s else
    var s1 := SetJob(s, j, s.jobs[j].(queued := true));
    if origin.Background? then s1.(store := s1.store + {KeyOf(s1.jobs[j])}) else s1
  }

  /** `gearman_server_job_add_reducer`, up to the attaching of the client. */
  function JobAdd(cfg: Config, s0: State, f: Name, u: string, data: string, p: Priority, when: int, origin: Origin)
    : (State, AddResult)
  {
    var s := EnsureFn(s0, f);
    var found := FindEqual(cfg, s, f, u, data);
    if found.Some? then (s, Exists(found.value))
    else if Limited(s.fns[f], p) then (s, Full)
    else
      var j := s.nextJob;
      var s1 := Create(cfg, s, NewJob(cfg, j, f, u, data, p, when));
      if origin == Background(false) then (FreeJob(cfg, s1, j), StoreFailed)
      else (Enqueue(cfg, Record(s1, j, origin), j), Added(j))
  }

  // Workers

  /** First on the list of its connection, last on the circular list of its function. */
  function NewWorker(s: State, c: Id, f: Name, timeout: int): State {
    var w := s.nextWorker;
    s.(workers := s.workers[w := Worker(c, f, timeout)],
       conWorkers := s.conWorkers[c := [w] + List(s.conWorkers, c)],
       fnWorkers := s.fnWorkers[f := List(s.fnWorkers, f) + [w]],
       nextWorker := w + 1)
  }

  /** `gearman_server_worker_add` */
  function AddWorker(s: State, c: Id, f: Name, timeout: int): State {
    if c !in s.cons then s else NewWorker(EnsureFn(s, f), c, f, timeout)
  }

  function DelWorker(s: State, w: Id): State {
    if w !in s.workers then s else
    var c, f := s.workers[w].con, s.workers[w].fn;
    s.(workers := s.workers - {w},
       running := s.running - {w},
       conWorkers := s.conWorkers[c := Remove(List(s.conWorkers, c), w)],
       fnWorkers := s.fnWorkers[f := Remove(List(s.fnWorkers, f), w)])
  }

  function RequeueAll(cfg: Config, s: State, js: seq<Id>): State
    decreases |js|
  {
    if js == [] then s else RequeueAll(cfg, JobQueue(cfg, s, js[0]), js[1..])
  }

  /** `gearman_server_worker_free`: what the worker was running is queued again. */
  function FreeWorker(cfg: Config, s: State, w: Id): State {
    DelWorker(RequeueAll(cfg, s, List(s.running, w)), w)
  }

  function FreeWorkers(cfg: Config, s: State, ws: seq<Id>): State
    decreases |ws|
  {
    if ws == [] then s else FreeWorkers(cfg, FreeWorker(cfg, s, ws[0]), ws[1..])
  }

  /** The workers of a connection registered for function `f`, in list order. */
  function Registered(s: State, c: Id, f: Name): seq<Id> {
    Filter(w => w in s.workers && s.workers[w].fn == f, List(s.conWorkers, c))
  }
}
