/** Runs of the server, event by event, at whose end a promise is broken: with one worker and one job. */
module Scenes {
  import opened Seqs
  import opened Scheduler
  import opened Tables
  import opened Traces
  import opened Timers
  import opened Invariant
  import opened JobOps
  import opened Selection
  import opened Commands
  import opened Steps
  import opened Effects
  import opened Endings
  import opened Stale

  function Simple(roundRobin: bool, prefix: string): Config { Config(roundRobin, -1, 0, false, 1, prefix, _ => 0) }

  const CFG := Simple(false, "")

  // Runs

  /** From a fresh server the events `es` lead to `s`. */
  ghost predicate RunsTo(cfg: Config, es: seq<Event>, s: State) {
    Runs(cfg, Init({}, 0), es) && s == Run(cfg, Init({}, 0), es)
  }

  ghost predicate Leads(cfg: Config, es: seq<Event>, s: State) { RunsTo(cfg, es, s) && Inv(cfg, s, BARE) }

  lemma Begin(cfg: Config)
    requires cfg.jobRetries <= 255
    ensures Leads(cfg, [], Init({}, 0))
  {
    InitInv(cfg, BARE, {}, 0);
  }

  lemma {:induction false} RunsOn1(cfg: Config, s: State, es: seq<Event>, e: Event)
    requires Runs(cfg, s, es) && Enabled(cfg, Run(cfg, s, es), e)
    ensures Runs(cfg, s, es + [e]) && Run(cfg, s, es + [e]) == Step(cfg, Run(cfg, s, es), e)
    decreases |es|
  {
    hide Step, Enabled;
    if es == [] {
      assert es + [e] == [e] && [e][1..] == [];
    } else {
      assert (es + [e])[1..] == es[1..] + [e] && (es + [e])[0] == es[0];
      RunsOn1(cfg, Step(cfg, s, es[0]), es[1..], e);
    }
  }

  lemma Then(cfg: Config, es: seq<Event>, s: State, e: Event)
    requires Leads(cfg, es, s) && Enabled(cfg, s, e) && Allowed(cfg, s, BARE, e)
    ensures Leads(cfg, es + [e], Step(cfg, s, e))
  {
    hide Inv, Runs, Run, Step, Enabled, Allowed, Init;
    RunsOn1(cfg, Init({}, 0), es, e);
    StepInv(cfg, s, BARE, e);
  }

  /** The last event of a run need not be one that keeps the invariant. */
  lemma Ends(cfg: Config, es: seq<Event>, s: State, e: Event)
    requires Leads(cfg, es, s) && Enabled(cfg, s, e)
    ensures RunsTo(cfg, es + [e], Step(cfg, s, e))
  {
    hide Inv, Runs, Run, Step, Enabled, Init;
    RunsOn1(cfg, Init({}, 0), es, e);
  }

  // A worker

  const IDLE := NewCon

  lemma ConnectIs(cfg: Config, s: State, c: Id)
    requires c !in s.cons
    ensures Enabled(cfg, s, Connect(c))
              && Step(cfg, s, Connect(c)) == s.(cons := s.cons[c := IDLE.(exceptions := cfg.exceptions)])
  {}

  lemma CanDoIs(cfg: Config, s: State, c: Id, f: Name, timeout: int)
    requires Served(s, c)
    ensures Enabled(cfg, s, CanDo(c, f, timeout))
              && Step(cfg, s, CanDo(c, f, timeout)) == NewWorker(EnsureFn(s, f), c, f, timeout)
  {
    hide NewWorker, EnsureFn;
  }

  /** Connection 0 can do "f". */
  ghost predicate Registered1(s: State, timeout: int) {
    && s.cons == map[0 := IDLE] && s.workers == map[0 := Worker(0, "f", timeout)] && s.fns == map["f" := NewFn]
    && List(s.conWorkers, 0) == [0] && List(s.fnWorkers, "f") == [0] && List(s.conWorkers, 1) == []
    && s.jobs == map[] && s.runs == map[] && s.fifo == map[] && s.running == map[] && s.clients == map[]
         && s.conClients == map[]
    && s.jobClients == map[] && s.handleIx == map[] && s.uniqueIx == map[] && s.nextJob == 0 && s.nextWorker == 1
         && s.nextClient == 0 && s.clock == 0
    && s.out == []
  }

  function Worker1(timeout: int): seq<Event> { [Connect(0), CanDo(0, "f", timeout)] }

  lemma Scene1(timeout: int) returns (s: State)
    ensures Leads(CFG, Worker1(timeout), s) && Registered1(s, timeout)
  {
    hide Leads, Step, Enabled;
    var s0 := Init({}, 0);
    Begin(CFG);
    ConnectIs(CFG, s0, 0);
    Then(CFG, [], s0, Connect(0));
    var s1 := Step(CFG, s0, Connect(0));
    CanDoIs(CFG, s1, 0, "f", timeout);
    Then(CFG, [] + [Connect(0)], s1, CanDo(0, "f", timeout));
    s := Step(CFG, s1, CanDo(0, "f", timeout));
    assert [] + [Connect(0)] + [CanDo(0, "f", timeout)] == Worker1(timeout);
    assert s.cons == map[0 := IDLE];
  }

  // One job

  /** The job that is submitted; a background job is in the persistent queue. */
  function TheJob(fg: bool): Job { NewJob(CFG, 0, "f", "", "", High, 0).(queued := !fg) }

  function SubmitIt(fg: bool): Event { Submit(0, "f", "", "", High, 0, if fg then Foreground else Background(true)) }

  /** Who waits for the job: connection 0 itself, when it is a foreground job. */
  ghost predicate Waited(s: State, fg: bool) {
    && s.clients == (if fg then map[0 := Client(0, 0)] else map[]) && List(s.jobClients, 0) == (if fg then [0] else [])
    && List(s.handleIx, 0) == [0] && s.clock == 0
  }

  ghost predicate OneWorker(s: State, timeout: int) {
    && s.workers == map[0 := Worker(0, "f", timeout)] && s.fns.Keys == {"f"} && s.fns["f"].maxQueue == map[]
    && List(s.conWorkers, 0) == [0] && List(s.fnWorkers, "f") == [0] && s.nextWorker == 1
  }

  /** The job waits in its FIFO. */
  ghost predicate Queued1(s: State, timeout: int, fg: bool, con: Con) {
    && OneWorker(s, timeout) && Waited(s, fg) && s.cons == map[0 := con] && s.fns["f"].jobCount == 1
    && s.jobs == map[0 := TheJob(fg)] && s.runs == map[] && s.fifo == map[("f", High) := [0]] && s.running == map[]
    && s.out == [Created(0, 0)] && (!fg ==> s.conClients == map[])
  }

  lemma Scene2(timeout: int, fg: bool) returns (s: State)
    ensures Leads(CFG, Worker1(timeout) + [SubmitIt(fg)], s) && Queued1(s, timeout, fg, IDLE)
  {
    hide Leads, Step, Enabled, NewJob;
    var s1 := Scene1(timeout);
    assert Quiet(s1, "f");
    var s2, s3 := SubmitIs(CFG, s1, 0, "f", "", "", High, 0, if fg then Foreground else Background(true));
    Then(CFG, Worker1(timeout), s1, SubmitIt(fg));
    s := Step(CFG, s1, SubmitIt(fg));
    Submitted(s1, s2, s3, s, timeout, fg);
  }

  lemma Submitted(s1: State, s2: State, s3: State, s: State, timeout: int, fg: bool)
    requires Registered1(s1, timeout) && Enters(CFG, s1, s2, TheJob(fg)) && s == s3.(out := s3.out + [Created(0, 0)])
    requires if fg then Attached(s2, s3, 0, 0) else s3 == s2
    ensures Queued1(s, timeout, fg, IDLE)
  {
    hide UniqueKey, Handle;
    var job := TheJob(fg);
    assert HomeOf(job) == ("f", High) && Bucket(CFG, job.spec.handleKey) == 0;
    assert List(s1.fifo, ("f", High)) + [0] == [0] && [0] + List(s1.handleIx, 0) == [0];
    assert List(s.handleIx, 0) == [0];
    assert OneWorker(s, timeout);
    assert fg ==> [0] + List(s2.jobClients, 0) == [0];
    assert Waited(s, fg);
  }

  /** The job runs on connection 0, which has a timeout about it if the worker has one. */
  ghost predicate Running1(s: State, timeout: int, fg: bool, con: Con) {
    && OneWorker(s, timeout) && Waited(s, fg) && s.cons == map[0 := con]
    && con.timer == (if timeout > 0 then Some(0) else None) && !con.sleeping
    && s.jobs == map[0 := TheJob(fg)] && s.runs == map[0 := 0] && s.fifo == map[("f", High) := []]
         && List(s.running, 0) == [0]
    && s.out == [Created(0, 0), Assign(0, 0)] && (!fg ==> s.conClients == map[])
  }

  lemma Grabs(s: State, timeout: int, fg: bool, con: Con) returns (t: State)
    requires Queued1(s, timeout, fg, con) && !con.removed && con.timer.None? && !con.sleeping && !con.noopSent
    ensures Enabled(CFG, s, Grab(0, true)) && t == Step(CFG, s, Grab(0, true))
    ensures Running1(t, timeout, fg, con.(timer := if timeout > 0 then Some(0) else None))
  {
    hide Step, Enabled, NewJob;
    Due1(fg);
    assert Classify(s, 0, High).Ready? && FirstReady(s, [0], High) == 0;
    assert Offers(s, 0, 0, 0);
    var u := GrabIs(CFG, s, 0, 0, 0);
    t := Step(CFG, s, Grab(0, true));
    Armed1(s, u, t, timeout, fg, con);
  }

  lemma Due1(fg: bool)
    ensures Due(TheJob(fg), 0) && HomeOf(TheJob(fg)) == ("f", High) && !TheJob(fg).ignore && TheJob(fg).queued == !fg
  {}

  lemma Armed1(s: State, u: State, t: State, timeout: int, fg: bool, con: Con)
    requires Queued1(s, timeout, fg, con) && con.timer.None? && !con.sleeping && !con.noopSent
    requires Hands(Awake(s, 0), u, 0, 0) && t == ArmTimer(Emit(u, Assign(0, 0)), 0, 0)
    ensures Running1(t, timeout, fg, con.(timer := if timeout > 0 then Some(0) else None))
  {
    hide NewJob, ArmTimer, Registered;
    Due1(fg);
    assert con.(sleeping := false, noopSent := false) == con;
    assert RemoveAt([0], 0) == [];
    OnlyRegistered(Emit(u, Assign(0, 0)), 0, 0);
    ArmIs(Emit(u, Assign(0, 0)), 0, 0, 0);
    assert List(t.running, 0) == [0];
  }

  function Run1(timeout: int, fg: bool): seq<Event> { Worker1(timeout) + [SubmitIt(fg)] + [Grab(0, true)] }

  lemma Scene3(timeout: int, fg: bool) returns (s: State, con: Con)
    ensures Leads(CFG, Run1(timeout, fg), s) && Running1(s, timeout, fg, con) && !con.dead && !con.removed
  {
    hide Leads, Step, Enabled, Queued1, Running1;
    var s1 := Scene2(timeout, fg);
    con := IDLE.(timer := if timeout > 0 then Some(0) else None);
    s := Grabs(s1, timeout, fg, IDLE);
    Then(CFG, Worker1(timeout) + [SubmitIt(fg)], s1, Grab(0, true));
  }

  // A timeout that comes late

  /** The job waits, and connection 0 has a timeout about it. */
  ghost predicate Stale1(s: State, con: Con) {
    && s.cons == map[0 := con] && con.timer == Some(0) && s.runs == map[] && s.jobs.Keys == {0}
    && s.fifo == map[("f", High) := [0]] && HomeOf(s.jobs[0]) == ("f", High) && "f" in s.fns
         && List(s.fnWorkers, "f") == []
  }

  lemma Freed1(s: State, con: Con)
    requires Running1(s, 1000, false, con)
    ensures var t := FreeWorkers(CFG, s, [0]);
            && t.cons == s.cons && t.workers == map[] && t.runs == map[] && t.jobs.Keys == {0}
                 && t.jobs[0] == Again(TheJob(false))
            && t.fifo == map[("f", High) := [0]] && t.clients == map[] && t.conClients == map[] && t.clock == 0
            && t.fns.Keys == {"f"} && t.fns["f"].maxQueue == map[] && List(t.fnWorkers, "f") == [] && t.nextWorker == 1
  {
    hide NewJob, JobQueue, Again;
    Due1(false);
    assert Quiet(s, "f");
    FreeIs(CFG, s, 0, 0);
    RequeueIs(CFG, s, 0);
    var u := JobQueue(CFG, s, 0);
    assert List(s.fifo, ("f", High)) + [0] == [0];
    assert Remove([0], 0) == [];
    assert s.runs - {0} == map[] && s.workers - {0} == map[];
  }

  /** CANT_DO leaves the timeout of the job behind; when it fires, the job is in its FIFO twice. */
  lemma CantDoThenTimeout() returns (t: State)
    ensures RunsTo(CFG, [Connect(0), CanDo(0, "f", 1000), SubmitIt(false), Grab(0, true), CantDo(0, "f"),
              JobTimeout(0)], t)
    ensures List(t.fifo, ("f", High)) == [0, 0]
  {
    hide Leads, Step, Enabled, RunsTo, NewJob;
    var s, con := Scene3(1000, false);
    var s1 := CantDo1(s, con);
    Then(CFG, Run1(1000, false), s, CantDo(0, "f"));
    Late1(s1, con);
    Ends(CFG, Run1(1000, false) + [CantDo(0, "f")], s1, JobTimeout(0));
    t := Step(CFG, s1, JobTimeout(0));
    assert Run1(1000, false) + [CantDo(0, "f")] + [JobTimeout(0)] ==
           [Connect(0), CanDo(0, "f", 1000), SubmitIt(false), Grab(0, true), CantDo(0, "f"), JobTimeout(0)];
  }

  lemma CantDo1(s: State, con: Con) returns (t: State)
    requires Running1(s, 1000, false, con) && !con.removed
    ensures Enabled(CFG, s, CantDo(0, "f")) && t == Step(CFG, s, CantDo(0, "f")) && Stale1(t, con)
  {
    hide FreeWorkers, Registered, NewJob;
    t := FreeWorkers(CFG, s, [0]);
    OnlyRegistered(s, 0, 0);
    Freed1(s, con);
    Due1(false);
  }

  /** The timeout of a waiting job puts it into its FIFO again. */
  lemma Late1(s: State, con: Con)
    requires Stale1(s, con)
    ensures Enabled(CFG, s, JobTimeout(0)) && List(Step(CFG, s, JobTimeout(0)).fifo, ("f", High)) == [0, 0]
  {
    hide Enqueue;
    var s0 := SetCon(s, 0, con.(timer := None));
    assert JobQueue(CFG, s0, 0) == Enqueue(CFG, s0, 0);
    EnqueueIs(CFG, s0, 0);
  }

  // Endings

  lemma Found1(s: State, timeout: int, fg: bool, con: Con)
    requires Running1(s, timeout, fg, con)
    ensures var h := TheJob(fg).spec.handle; JobGet(CFG, s, h, None) == Some(0) && JobGet(CFG, s, h, Some(0)) == Some(0)
    ensures RunsOn(s, 0, 0) && |TheJob(fg).spec.handle| < JOB_HANDLE_SIZE
  {
    hide Decimal, UniqueKey;
    assert CFG.hash(TheJob(fg).spec.handle) == 0 && Bucket(CFG, 0) == 0;
    assert List(s.handleIx, 0)[0] == 0;
  }

  /** A foreground job is canceled while it runs, and then completed: its client is told twice. */
  lemma CancelThenComplete() returns (t: State)
    ensures var h := TheJob(true).spec.handle;
            RunsTo(CFG, [Connect(0), CanDo(0, "f", 0), SubmitIt(true), Grab(0, true), Cancel(h, true),
                Result(0, h, Complete, true)], t)
    ensures !Clean(t.out)
  {
    hide Leads, Step, RunsTo, NewJob, JobGet, Clean, CancelJob;
    var s, con := Scene3(0, true);
    var h := TheJob(true).spec.handle;
    Found1(s, 0, true, con);
    Then(CFG, Run1(0, true), s, Cancel(h, true));
    var s1 := CancelStep(s, h);
    CancelCalls(CFG, s, h, true, 0);
    CanceledHearsMore(CFG, s, h, true, 0, Result(0, h, Complete, true));
    Ends(CFG, Run1(0, true) + [Cancel(h, true)], s1, Result(0, h, Complete, true));
    t := Step(CFG, s1, Result(0, h, Complete, true));
    assert Run1(0, true) + [Cancel(h, true)] + [Result(0, h, Complete, true)] ==
           [Connect(0), CanDo(0, "f", 0), SubmitIt(true), Grab(0, true), Cancel(h, true), Result(0, h, Complete, true)];
  }

  lemma CancelStep(s: State, h: string) returns (t: State)
    ensures t == CancelJob(CFG, s, h, true) && Enabled(CFG, s, Cancel(h, true)) && t == Step(CFG, s, Cancel(h, true))
  {
    hide CancelJob;
    t := CancelJob(CFG, s, h, true);
  }

  /** The result of a background job cannot be stored, and is sent again: two results are accepted. */
  lemma UnstoredTwice() returns (t: State)
    ensures var h := TheJob(false).spec.handle;
            RunsTo(CFG, [Connect(0), CanDo(0, "f", 0), SubmitIt(false), Grab(0, true), Result(0, h, Complete, false),
                Result(0, h, Complete, true)], t)
    ensures !Clean(t.out)
  {
    hide Leads, Step, Enabled, RunsTo, NewJob, Clean, Running1;
    var s, con := Scene3(0, false);
    var h := TheJob(false).spec.handle;
    LeadsInv(CFG, Run1(0, false), s);
    var s1 := Rejected(s, con, h);
    Then(CFG, Run1(0, false), s, Result(0, h, Complete, false));
    Ends(CFG, Run1(0, false) + [Result(0, h, Complete, false)], s1, Result(0, h, Complete, true));
    t := Step(CFG, s1, Result(0, h, Complete, true));
    assert Run1(0, false) + [Result(0, h, Complete, false)] + [Result(0, h, Complete, true)] ==
           [Connect(0), CanDo(0, "f", 0), SubmitIt(false), Grab(0, true), Result(0, h, Complete, false),
               Result(0, h, Complete, true)];
  }

  lemma Rejected(s: State, con: Con, h: string) returns (t: State)
    requires Running1(s, 0, false, con) && !con.removed && Inv(CFG, s, BARE) && h == TheJob(false).spec.handle
    ensures Enabled(CFG, s, Result(0, h, Complete, false)) && t == Step(CFG, s, Result(0, h, Complete, false))
    ensures Enabled(CFG, t, Result(0, h, Complete, true)) && !Clean(Step(CFG, t, Result(0, h, Complete, true)).out)
  {
    hide Step, Enabled, NewJob, JobGet, Clean, WorkResult, Inv, FanOut, Answered;
    Found1(s, 0, false, con);
    Due1(false);
    t := ResultStep(s, h, false);
    Unstored(CFG, s, BARE, 0, h, Complete, 0);
    var u := ResultStep(t, h, true);
    UnstoredEndsTwice(CFG, s, BARE, 0, h, Complete, Complete, true, 0);
  }

  lemma ResultStep(s: State, h: string, ok: bool) returns (t: State)
    requires Served(s, 0)
    ensures t == WorkResult(CFG, s, 0, h, Complete, ok) && Enabled(CFG, s, Result(0, h, Complete, ok))
              && t == Step(CFG, s, Result(0, h, Complete, ok))
  {
    hide WorkResult;
    t := WorkResult(CFG, s, 0, h, Complete, ok);
  }

  lemma LeadsInv(cfg: Config, es: seq<Event>, s: State)
    requires Leads(cfg, es, s)
    ensures Inv(cfg, s, BARE)
  {
    hide Inv, Runs, Run, Init;
  }

  // A timeout of a dead connection

  function DeadRun(): seq<Event> {
    Worker1(1000) + [SubmitIt(false)] + [Disconnect(0)] + [Grab(0, true)] + [Cleanup(0)]
  }

  const DEAD := IDLE.(dead := true)

  /** A connection that is dead grabs the job before it is cleaned up. */
  lemma Scene4() returns (s: State)
    ensures Leads(CFG, DeadRun(), s) && Stale1(s, DEAD.(timer := Some(0), removed := true))
    ensures s.workers == map[] && s.clock == 0 && s.nextWorker == 1 && s.fns.Keys == {"f"} && Due(s.jobs[0], 0)
              && !s.jobs[0].ignore
  {
    hide Leads, Step, Enabled, NewJob;
    var s2 := Scene2(1000, false);
    var s3 := Dies1(s2);
    Then(CFG, Worker1(1000) + [SubmitIt(false)], s2, Disconnect(0));
    var s4 := Grabs(s3, 1000, false, DEAD);
    Then(CFG, Worker1(1000) + [SubmitIt(false)] + [Disconnect(0)], s3, Grab(0, true));
    s := CleanUp1(s4, DEAD.(timer := Some(0)));
    Then(CFG, Worker1(1000) + [SubmitIt(false)] + [Disconnect(0)] + [Grab(0, true)], s4, Cleanup(0));
  }

  lemma Dies1(s: State) returns (t: State)
    requires Queued1(s, 1000, false, IDLE)
    ensures Enabled(CFG, s, Disconnect(0)) && t == Step(CFG, s, Disconnect(0)) && Queued1(t, 1000, false, DEAD)
  {
    hide NewJob;
    t := Step(CFG, s, Disconnect(0));
    assert t == s.(cons := s.cons[0 := DEAD]);
  }

  lemma CleanUp1(s: State, con: Con) returns (t: State)
    requires Running1(s, 1000, false, con) && con.dead && !con.removed
    ensures Enabled(CFG, s, Cleanup(0)) && t == Step(CFG, s, Cleanup(0)) && Stale1(t, con.(removed := true))
    ensures t.workers == map[] && t.clock == 0 && t.nextWorker == 1 && t.fns.Keys == {"f"} && Due(t.jobs[0], 0)
              && !t.jobs[0].ignore
  {
    hide FreeWorkers, NewJob;
    t := CleanUp(CFG, s, 0);
    Freed1(s, con);
    Due1(false);
    var s1 := FreeWorkers(CFG, s, [0]);
    assert FreeClients(s1, List(s1.conClients, 0)) == s1;
  }

  /** Its timeout, when it fires, puts the waiting job into its FIFO again. */
  lemma DeadTimeout() returns (t: State)
    ensures RunsTo(CFG, [Connect(0), CanDo(0, "f", 1000), SubmitIt(false), Disconnect(0), Grab(0, true), Cleanup(0),
              JobTimeout(0)], t)
    ensures List(t.fifo, ("f", High)) == [0, 0]
  {
    hide Leads, Step, Enabled, RunsTo, NewJob;
    var s := Scene4();
    Late1(s, DEAD.(timer := Some(0), removed := true));
    Ends(CFG, DeadRun(), s, JobTimeout(0));
    t := Step(CFG, s, JobTimeout(0));
    assert DeadRun() + [JobTimeout(0)] ==
           [Connect(0), CanDo(0, "f", 1000), SubmitIt(false), Disconnect(0), Grab(0, true), Cleanup(0), JobTimeout(0)];
  }

  /** Connection 1 can do "f" too, and runs the job, with a timeout of its own. */
  ghost predicate Taken1(s: State, con: Con) {
    && s.cons.Keys == {0, 1} && s.cons[0] == con && !s.cons[1].dead && s.cons[1].timer == Some(0)
    && s.workers == map[1 := Worker(1, "f", 1000)] && s.runs == map[0 := 1] && s.jobs.Keys == {0}
  }

  lemma Comes1(s: State, con: Con) returns (t: State)
    requires Stale1(s, con) && s.workers == map[] && s.clock == 0 && s.nextWorker == 1 && s.fns.Keys == {"f"}
    ensures Enabled(CFG, s, Connect(1)) && t == Step(CFG, s, Connect(1)) && t == s.(cons := map[0 := con, 1 := IDLE])
  {
    ConnectIs(CFG, s, 1);
    t := Step(CFG, s, Connect(1));
    hide Step;
    assert map[0 := con][1 := IDLE] == map[0 := con, 1 := IDLE];
  }

  /** Connection 1 can do "f", and the job waits. */
  ghost predicate Offered1(s: State, con: Con) {
    && s.cons == map[0 := con, 1 := IDLE] && s.runs == map[] && s.jobs.Keys == {0} && s.fifo == map[("f", High) := [0]]
    && HomeOf(s.jobs[0]) == ("f", High) && Due(s.jobs[0], 0) && !s.jobs[0].ignore && s.fns.Keys == {"f"} && s.clock == 0
    && s.workers == map[1 := Worker(1, "f", 1000)] && List(s.conWorkers, 1) == [1] && s.fns["f"].jobCount == 1
  }

  lemma Offers1(s: State, s0: State, con: Con) returns (t: State)
    requires Stale1(s0, con) && s0.workers == map[] && s0.clock == 0 && s0.nextWorker == 1 && s0.fns.Keys == {"f"}
    requires Due(s0.jobs[0], 0) && !s0.jobs[0].ignore && s == s0.(cons := map[0 := con, 1 := IDLE])
    requires List(s0.conWorkers, 1) == [] && s0.fns["f"].jobCount == 1
    ensures Enabled(CFG, s, CanDo(1, "f", 1000)) && t == Step(CFG, s, CanDo(1, "f", 1000)) && Offered1(t, con)
  {
    CanDoIs(CFG, s, 1, "f", 1000);
    t := Step(CFG, s, CanDo(1, "f", 1000));
    hide Step, Enabled;
  }

  lemma Takes1(s: State, con: Con) returns (t: State)
    requires Offered1(s, con)
    ensures Enabled(CFG, s, Grab(1, true)) && t == Step(CFG, s, Grab(1, true)) && Taken1(t, con)
  {
    hide Step, Enabled, ArmTimer, Hands;
    assert Classify(s, 1, High).Ready? && FirstReady(s, [1], High) == 0;
    assert Offers(s, 1, 1, 0);
    var u := GrabIs(CFG, s, 1, 1, 0);
    t := Step(CFG, s, Grab(1, true));
    Armed2(s, u, t, con);
  }

  lemma Armed2(s: State, u: State, t: State, con: Con)
    requires Offered1(s, con) && Hands(Awake(s, 1), u, 1, 0) && t == ArmTimer(Emit(u, Assign(1, 0)), 1, 0)
    ensures Taken1(t, con)
  {
    hide ArmTimer, Registered;
    OnlyRegistered(Emit(u, Assign(1, 0)), 1, 1);
    ArmIs(Emit(u, Assign(1, 0)), 1, 0, 1);
  }

  lemma Counted1(s: State, con: Con)
    requires Inv(CFG, s, BARE) && Stale1(s, con) && s.workers == map[]
    ensures s.fns["f"].jobCount == 1 && List(s.conWorkers, 1) == []
  {
    hide ListsOk, RefsOk, JobsOf, RunningOf;
    ConWorkers(CFG, s, BARE, 1);
    Nothing(List(s.conWorkers, 1));
    assert CountOk(s.fns["f"], "f", s.jobs, s.runs, s.fifo);
  }

  function TakenRun(): seq<Event> { DeadRun() + [Connect(1)] + [CanDo(1, "f", 1000)] + [Grab(1, true)] }

  lemma Scene5() returns (s: State, con: Con)
    ensures Leads(CFG, TakenRun(), s) && Taken1(s, con) && con.timer == Some(0) && con.dead
  {
    hide Leads, Step, Enabled, RunsTo, Offered1, Taken1, Due, DeadRun;
    var s0 := Scene4();
    con := DEAD.(timer := Some(0), removed := true);
    LeadsInv(CFG, DeadRun(), s0);
    Counted1(s0, con);
    var s1 := Comes1(s0, con);
    Then(CFG, DeadRun(), s0, Connect(1));
    var s2 := Offers1(s1, s0, con);
    Then(CFG, DeadRun() + [Connect(1)], s1, CanDo(1, "f", 1000));
    s := Takes1(s2, con);
    Then(CFG, DeadRun() + [Connect(1)] + [CanDo(1, "f", 1000)], s2, Grab(1, true));
  }

  /** The job is handed out again meanwhile: the timeout of the dead connection takes it from the live one
      that runs it, whose own timeout is then about a job that it does not run. */
  lemma DeadTimeoutRobs() returns (t: State)
    ensures RunsTo(CFG, [Connect(0), CanDo(0, "f", 1000), SubmitIt(false), Disconnect(0), Grab(0, true), Cleanup(0),
                         Connect(1), CanDo(1, "f", 1000), Grab(1, true), JobTimeout(0)], t)
    ensures !TimersOk(t.cons, t.runs, t.workers, {})
  {
    hide Leads, Step, Enabled, RunsTo, TimersOk, Taken1, Inv;
    var s, con := Scene5();
    LeadsInv(CFG, TakenRun(), s);
    Robs1(s, con);
    Ends(CFG, TakenRun(), s, JobTimeout(0));
    t := Step(CFG, s, JobTimeout(0));
    assert TakenRun() + [JobTimeout(0)] ==
           [Connect(0), CanDo(0, "f", 1000), SubmitIt(false), Disconnect(0), Grab(0, true), Cleanup(0),
            Connect(1), CanDo(1, "f", 1000), Grab(1, true), JobTimeout(0)];
  }

  lemma Robs1(s: State, con: Con)
    requires Taken1(s, con) && con.timer == Some(0) && con.dead && Inv(CFG, s, BARE)
    ensures Enabled(CFG, s, JobTimeout(0))
    ensures var t := Step(CFG, s, JobTimeout(0)); !TimersOk(t.cons, t.runs, t.workers, {})
  {
    hide Inv, Step;
    FiredTimers(CFG, s, BARE, 0);
  }
}
