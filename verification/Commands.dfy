/** The steps of the server: the commands of `gearman_server_run_command`, the timers, and the
    coming and going of connections. */
module Commands {
  import opened Seqs
  import opened Scheduler
  import opened Selection

  datatype Event =
    | Connect(con: Id)
    | Disconnect(con: Id)
    | Cleanup(con: Id)
    | Destroy(con: Id)
    | CanDo(con: Id, fn: Name, timeout: int)
    | CantDo(con: Id, fn: Name)
    | ResetAbilities(con: Id)
    | Submit(con: Id, fn: Name, unique: string, data: string, priority: Priority, when: int, origin: Origin)
    | Replay(fn: Name, unique: string, data: string, priority: Priority, when: int)
    | Grab(con: Id, sendOk: bool)
    | PreSleep(con: Id)
    | Result(con: Id, handle: string, kind: Kind, storeOk: bool)
    | Update(con: Id, handle: string, kind: Kind)
    | Cancel(handle: string, storeOk: bool)
    | Exceptions(con: Id)
    | MaxQueue(fn: Name, limits: map<Priority, nat>)
    | JobTimeout(con: Id)
    | EpochTimer(fn: Name)
    | Tick(now: int)

  /** Commands run on a connection until the processing thread is done with it. */
  predicate Served(s: State, c: Id) { c in s.cons && !s.cons[c].removed }

  function Awake(s: State, c: Id): State {
    if c in s.cons then SetCon(s, c, s.cons[c].(sleeping := false, noopSent := false)) else s
  }

  /** When a step can happen: a timer fires when it is armed and its time has come, the clock
      does not go back, and a search for a job that never ends is no step. */
  predicate Enabled(cfg: Config, s: State, e: Event) {
    match e
    case Connect(c) => c !in s.cons
    case Disconnect(c) => Served(s, c)
    case Cleanup(c) => Served(s, c) && s.cons[c].dead
    case Destroy(c) => c in s.cons && s.cons[c].removed
    case CanDo(c, _, _) => Served(s, c)
    case CantDo(c, _) => Served(s, c)
    case ResetAbilities(c) => Served(s, c)
    case Submit(c, _, _, _, _, when, origin) => Served(s, c) && !origin.Replayed? && (when != 0 ==> origin.Background?)
    case Replay(f, u, _, _, _) => (Truncate(CString(u), MAX_UNIQUE_SIZE - 1), |u|, f) in s.store
    case Grab(c, _) => Served(s, c) && !TakeHangs(cfg, Awake(s, c), c)
    case PreSleep(c) => Served(s, c) && !PeekHangs(cfg, s, c)
    case Result(c, _, k, _) => Served(s, c) && Terminal(k)
    case Update(c, _, k) => Served(s, c) && !Terminal(k)
    case Cancel(_, _) => true
    case Exceptions(c) => Served(s, c)
    case MaxQueue(_, _) => true
    case JobTimeout(c) => c in s.cons && s.cons[c].timer.Some?
    case EpochTimer(f) => f in s.fns && s.fns[f].timer.Some? && s.fns[f].timer.value <= s.clock
    case Tick(now) => s.clock <= now
  }

  const NewCon := Con(false, false, false, None, false, false)

  /** The commands that submit a job. A foreground client is remembered even while it turns out
      that there will be no job for it. */
  function SubmitJob(cfg: Config, s: State, c: Id, f: Name, u: string, data: string, p: Priority, when: int,
      origin: Origin): State {
    if |u| > MAX_UNIQUE_SIZE then Emit(s, Error(c)) else
    var (s1, r) := JobAdd(cfg, s, f, u, data, p, when, origin);
    if r.Full? || r.StoreFailed? then Emit(s1, Error(c)) else
    Emit(if origin.Foreground? then AddClient(s1, c, r.job) else s1, Created(c, r.job))
  }

  /** `gearman_server_con_add_job_timeout`: the first worker of the connection for the job's
      function says whether there is a timeout. */
  function ArmTimer(s: State, c: Id, j: Id): State {
    if c !in s.cons || j !in s.jobs then s else
    var ws := Registered(s, c, s.jobs[j].spec.fn);
    var timed := ws != [] && ws[0] in s.workers && s.workers[ws[0]].timeout > 0;
    SetCon(s, c, s.cons[c].(timer := if timed then Some(j) else None))
  }

  /** GRAB_JOB; when the assignment cannot be queued the job goes back. */
  function GrabJob(cfg: Config, s: State, c: Id, sendOk: bool): State {
    if c !in s.cons then s else
    var (s1, j) := Take(cfg, Awake(s, c), c);
    if j.None? then Emit(s1, NoJob(c))
    else if sendOk then ArmTimer(Emit(s1, Assign(c, j.value)), c, j.value)
    else JobQueue(cfg, s1, j.value)
  }

  function Sleep(cfg: Config, s: State, c: Id): State {
    var (s1, j) := Peek(cfg, s, c);
    if j.Some? then Emit(s1, Noop(c))
    else if c in s1.cons then SetCon(s1, c, s1.cons[c].(sleeping := true, timer := None)) else s1
  }

  /** WORK_COMPLETE, WORK_EXCEPTION and WORK_FAIL. When the persistent queue fails, the job
      stays. */
  function WorkResult(cfg: Config, s: State, c: Id, handle: string, kind: Kind, storeOk: bool): State {
    var j := if kind == Fail && |handle| >= JOB_HANDLE_SIZE then None else JobGet(cfg, s, handle, Some(c));
    if j.None? || j.value !in s.jobs then Emit(s, Error(c)) else
    var s1 := FanOut(Emit(s, Accepted(c, j.value)), List(s.jobClients, j.value), j.value, kind);
    if s.jobs[j.value].queued && !storeOk then s1 else FreeJob(cfg, QueueDone(s1, j.value), j.value)
  }

  /** WORK_DATA, WORK_WARNING and WORK_STATUS. */
  function WorkUpdate(cfg: Config, s: State, c: Id, handle: string, kind: Kind): State {
    var j := JobGet(cfg, s, handle, Some(c));
    if j.None? || j.value !in s.jobs then Emit(s, Error(c)) else FanOut(s, List(s.jobClients, j.value), j.value, kind)
  }

  /** `gearman_server_job_cancel` */
  function CancelJob(cfg: Config, s: State, handle: string, storeOk: bool): State {
    var j := JobGet(cfg, s, handle, None);
    if j.None? || j.value !in s.jobs then s else
    var s1 := FanOut(s, List(s.jobClients, j.value), j.value, Fail);
    if s.jobs[j.value].queued && !storeOk then s1 else
    SetJob(QueueDone(s1, j.value), j.value, s.jobs[j.value].(ignore := true, queued := false))
  }

  /** The past is forgotten, and the timer set for what comes next. */
  function Rearm(fn: Func, now: int): (r: Func)
    ensures r == fn.(pending := r.pending, timer := r.timer)
  {
    var left := Prune(fn.pending, now);
    if left != [] && left[0] > 0 then Schedule(fn.(pending := left), left[0], now) else fn.(pending := left)
  }

  /** `_epoch_wakeup_cb` */
  function EpochFire(cfg: Config, s: State, f: Name): State {
    if f !in s.fns then s else
    var s1 := Wake(SetFn(s, f, s.fns[f].(timer := None)), f, cfg.workerWakeup);
    SetFn(s1, f, Rearm(s1.fns[f], s.clock))
  }

  /** What `_proc` does with a dead connection. */
  function CleanUp(cfg: Config, s: State, c: Id): State {
    var s1 := FreeWorkers(cfg, s, List(s.conWorkers, c));
    var s2 := FreeClients(s1, List(s1.conClients, c));
    if c !in s2.cons then s2 else SetCon(s2, c, s2.cons[c].(removed := true))
  }

  function Step(cfg: Config, s: State, e: Event): State
    requires Enabled(cfg, s, e)
  {
    match e
    case Connect(c) => SetCon(s, c, NewCon.(exceptions := cfg.exceptions))
    case Disconnect(c) => SetCon(s, c,
        s.cons[c].(dead := true, timer := None, sleeping := false, noopSent := false, exceptions := cfg.exceptions))
    case Cleanup(c) => CleanUp(cfg, s, c)
    case Destroy(c) => s.(cons := s.cons - {c})
    case CanDo(c, f, t) => AddWorker(s, c, f, t)
    case CantDo(c, f) => FreeWorkers(cfg, s, Registered(s, c, f))
    case ResetAbilities(c) => FreeWorkers(cfg, s, List(s.conWorkers, c))
    case Submit(c, f, u, d, p, when, origin) => SubmitJob(cfg, s, c, f, u, d, p, when, origin)
    case Replay(f, u, d, p, when) => JobAdd(cfg, s, f, u, d, p, when, Replayed).0
    case Grab(c, ok) => GrabJob(cfg, s, c, ok)
    case PreSleep(c) => Sleep(cfg, s, c)
    case Result(c, h, k, ok) => WorkResult(cfg, s, c, h, k, ok)
    case Update(c, h, k) => WorkUpdate(cfg, s, c, h, k)
    case Cancel(h, ok) => CancelJob(cfg, s, h, ok)
    case Exceptions(c) => SetCon(s, c, s.cons[c].(exceptions := true))
    case MaxQueue(f, limits) => if f in s.fns then SetFn(s, f, s.fns[f].(maxQueue := limits)) else s
    case JobTimeout(c) => JobQueue(cfg, SetCon(s, c, s.cons[c].(timer := None)), s.cons[c].timer.value)
    case EpochTimer(f) => EpochFire(cfg, s, f)
    case Tick(now) => s.(clock := now)
  }

  /** A fresh server over a persistent queue that holds `store`. */
  function Init(store: set<Key>, now: int): State {
    State(map[], map[], map[], map[], map[], map[], map[], map[], map[], map[], map[], map[], map[], map[],
          store, 0, 0, 0, now, [])
  }

  /** The events of a run, each possible when it happens. */
  predicate Runs(cfg: Config, s: State, es: seq<Event>)
    decreases |es|
  {
    es == [] || (Enabled(cfg, s, es[0]) && Runs(cfg, Step(cfg, s, es[0]), es[1..]))
  }

  function Run(cfg: Config, s: State, es: seq<Event>): State
    requires Runs(cfg, s, es)
    decreases |es|
  {
    if es == [] then s else Run(cfg, Step(cfg, s, es[0]), es[1..])
  }
}
