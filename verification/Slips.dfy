/** Two runs at whose end a job is not what its client, or its worker, was promised. */
module Slips {
  import opened Seqs
  import opened Scheduler
  import opened Invariant
  import opened JobOps
  import opened Selection
  import opened Commands
  import opened Steps
  import opened Effects
  import opened Scenes
  import opened Corners
  import Lost
  import Joint
  import C = Choices
  import T = Taking
  import opened Thinning
  import R = Requeues
  import B = Submits
  import A = Answers

  // A background job that a client joins and leaves

  function Join(c: Id): Event { Submit(c, "f", "u", "", High, 0, Foreground) }

  lemma Stored1(s: State) returns (t: State)
    requires Idle1(s) && Inv(CFG, s, BARE)
    ensures Enabled(CFG, s, Background1("f", "u", 0)) && t == Step(CFG, s, Background1("f", "u", 0))
    ensures t.cons == s.cons && t.jobs == map[0 := Job1(CFG, 0, "f", "u", 0)] && t.clients == map[]
    ensures ("u", 1, "f") in t.store && t.jobClients == map[] && t.runs == map[]
  {
    hide Inv, Step, Enabled, Handle, B.Replies;
    var e := Background1("f", "u", 0);
    t := First(CFG, s, "f", "u", 0);
    NoEqual1(CFG, s, "f", "u");
    B.SubmitAdds(CFG, s, BARE, e);
    assert CString("u") == "u";
  }

  /** Only connection 1 waits for job 0, which is in the persistent queue. */
  ghost predicate Shared(s: State) {
    && Served(s, 1) && 0 in s.jobs && s.runs == map[] && ("u", 1, "f") in s.store && R.OnlyFor(s, 1, 0)
  }

  lemma Joins2(s: State) returns (t: State)
    requires Inv(CFG, s, BARE) && s.cons == map[0 := IDLE, 1 := IDLE] && s.jobs == map[0 := Job1(CFG, 0, "f", "u", 0)]
    requires s.clients == map[] && s.jobClients == map[] && s.runs == map[] && ("u", 1, "f") in s.store
    ensures Enabled(CFG, s, Join(1)) && t == Step(CFG, s, Join(1)) && Shared(t) && Served(t, 1)
  {
    hide Inv, Step, Handle, FindEqual, Life, TakeHangs, PeekHangs;
    B.SearchFinds(CFG, s, BARE, "f", "u", "");
    assert CString("u") == "u";
    assert B.Matches(CFG, s.jobs[0], "f", "u", "");
    B.SubmitJoins(CFG, s, BARE, Join(1), 0);
    t := Step(CFG, s, Join(1));
    Joint.StepLife(CFG, s, BARE, Join(1));
    StillDead(s, t, 1);
    assert [s.nextClient] + List(s.jobClients, 0) == [s.nextClient];
  }

  function SharedRun(): seq<Event> { [Connect(0)] + [Background1("f", "u", 0)] + [Connect(1)] + [Join(1)] }

  lemma Shares() returns (s: State)
    ensures Leads(CFG, SharedRun(), s) && Shared(s) && Served(s, 1)
  {
    hide Leads, Step, Enabled, Handle, Shared, NewJob;
    var e := Background1("f", "u", 0);
    var s0 := Alone(CFG);
    LeadsInv(CFG, [Connect(0)], s0);
    var s1 := Stored1(s0);
    Then(CFG, [Connect(0)], s0, e);
    var s2 := Lost.ConnectSecond(s1);
    Then(CFG, [Connect(0)] + [e], s1, Connect(1));
    LeadsInv(CFG, [Connect(0)] + [e] + [Connect(1)], s2);
    s := Joins2(s2);
    Then(CFG, [Connect(0)] + [e] + [Connect(1)], s2, Join(1));
  }

  /** A background job is joined by a foreground client, which goes: the job is ignored from now on, and still in the
      persistent queue. */
  lemma BackgroundAbandoned() returns (t: State)
    ensures RunsTo(CFG, [Connect(0), Background1("f", "u", 0), Connect(1), Join(1), Disconnect(1), Cleanup(1)], t)
    ensures 0 in t.jobs && t.jobs[0].ignore && ("u", 1, "f") in t.store
  {
    hide Leads, RunsTo, Step, Enabled, Shared;
    var s := Shares();
    var s1 := Goes(s, 1);
    Then(CFG, SharedRun(), s, Disconnect(1));
    LeadsInv(CFG, SharedRun() + [Disconnect(1)], s1);
    Ends(CFG, SharedRun() + [Disconnect(1)], s1, Cleanup(1));
    t := Step(CFG, s1, Cleanup(1));
    Forsaken(s, s1);
    assert SharedRun() + [Disconnect(1)] + [Cleanup(1)] ==
             [Connect(0), Background1("f", "u", 0), Connect(1), Join(1), Disconnect(1), Cleanup(1)];
  }

  /** `t` is `s`, but connection `c` is dead. */
  ghost predicate Gone(s: State, t: State, c: Id) {
    && t == s.(cons := t.cons) && t.cons.Keys == s.cons.Keys
    && forall d :: d in s.cons && d != c ==> t.cons[d] == s.cons[d]
  }

  lemma Goes(s: State, c: Id) returns (t: State)
    requires c in s.cons && !s.cons[c].removed
    ensures Enabled(CFG, s, Disconnect(c)) && t == Step(CFG, s, Disconnect(c)) && Gone(s, t, c)
    ensures Enabled(CFG, t, Cleanup(c))
  {
    hide TakeHangs, PeekHangs;
    t := Step(CFG, s, Disconnect(c));
  }

  lemma Forsaken(s0: State, s: State)
    requires Shared(s0) && Gone(s0, s, 1) && Inv(CFG, s, BARE) && Enabled(CFG, s, Cleanup(1))
    ensures var t := Step(CFG, s, Cleanup(1)); 0 in t.jobs && t.jobs[0].ignore && ("u", 1, "f") in t.store
  {
    hide Inv, Step, Enabled;
    R.CleanUpAbandons(CFG, s, BARE, 1, 0);
    R.CleanUpStore(CFG, s, BARE, 1);
    assert R.LostKeys(CFG, s.jobs, R.RunFor(s, 1, None)) == {};
  }

  // A timeout that is deleted

  /** Job 0 runs on connection 0 under a timeout, and connection 1 is there. */
  ghost predicate Timed2(s: State) {
    && OneWorker(s, 1000) && s.runs == map[0 := 0] && 0 in s.jobs && !s.jobs[0].ignore && s.clock == 0
    && s.cons.Keys == {0, 1} && s.cons[0].timer == Some(0) && !s.cons[0].sleeping && !s.cons[0].removed
  }

  function Brief(): Event { Submit(1, "f", "", "", High, 0, Foreground) }

  /** Only connection 1 waits for job `j`, which is due. */
  ghost predicate Waiting2(s: State, j: Id) {
    && Timed2(s) && s.jobs.Keys == {0, j} && j != 0 && Due(s.jobs[j], 0) && s.jobs[j].spec.fn == "f"
    && R.OnlyFor(s, 1, j) && List(s.jobClients, 0) == []
  }

  lemma Briefly(s: State) returns (t: State)
    requires Inv(CFG, s, BARE) && Timed2(s) && s.jobs.Keys == {0} && List(s.jobClients, 0) == []
    requires 1 in s.cons && s.cons[1] == IDLE
    ensures Enabled(CFG, s, Brief()) && t == Step(CFG, s, Brief()) && Waiting2(t, s.nextJob) && t.cons == s.cons
  {
    hide Inv, Step, Enabled, NewJob, Enters, Attached, Waiting2, FindEqual;
    assert Quiet(s, "f");
    B.NewNumber(CFG, s, BARE);
    NoUnique(s);
    var s1, s2 := SubmitIs(CFG, s, 1, "f", "", "", High, 0, Foreground);
    t := Step(CFG, s, Brief());
    WaitsNow(s, s1, s2, t);
  }

  lemma WaitsNow(s: State, s1: State, s2: State, t: State)
    requires Timed2(s) && s.jobs.Keys == {0} && List(s.jobClients, 0) == [] && List(s.jobClients, s.nextJob) == []
    requires Enters(CFG, s, s1, NewJob(CFG, s.nextJob, "f", "", "", High, 0).(queued := false)) && s.nextJob != 0
    requires Attached(s1, s2, 1, s.nextJob) && t == s2.(out := t.out)
    ensures Waiting2(t, s.nextJob) && t.cons == s.cons
  {
    hide Handle, UniqueKey, Truncate, CString, Indexes;
    assert [s.nextClient] + List(s.jobClients, s.nextJob) == [s.nextClient];
  }

  /** Job `j` is ignored. */
  ghost predicate Ignored2(s: State, j: Id) {
    && Timed2(s) && s.jobs.Keys == {0, j} && j != 0 && Due(s.jobs[j], 0) && s.jobs[j].spec.fn == "f" && s.jobs[j].ignore
  }

  lemma Cleans2(s0: State, s: State, j: Id) returns (t: State)
    requires Waiting2(s0, j) && Gone(s0, s, 1) && Inv(CFG, s, BARE) && Enabled(CFG, s, Cleanup(1))
    ensures t == Step(CFG, s, Cleanup(1)) && Ignored2(t, j)
  {
    hide Inv, Step, Enabled;
    t := Step(CFG, s, Cleanup(1));
    R.CleanUpAbandons(CFG, s, BARE, 1, 0);
    R.CleanUpAbandons(CFG, s, BARE, 1, j);
    Idler(s);
    NoWorkers(s, 1);
  }

  lemma Idler(s: State)
    requires Inv(CFG, s, BARE) && OneWorker(s, 1000)
    ensures List(s.conWorkers, 1) == []
  {
    hide Inv;
    ConWorkers(CFG, s, BARE, 1);
    Nothing(List(s.conWorkers, 1));
  }

  lemma NoWorkers(s: State, c: Id)
    requires Enabled(CFG, s, Cleanup(c)) && List(s.conWorkers, c) == []
    ensures var t := Step(CFG, s, Cleanup(c));
            && t == s.(jobs := t.jobs, clients := t.clients, conClients := t.conClients, jobClients := t.jobClients,
                       cons := t.cons)
            && t.jobs.Keys == s.jobs.Keys && t.cons.Keys == s.cons.Keys
            && forall d :: d in s.cons && d != c ==> t.cons[d] == s.cons[d]
  {
    hide FreeClients, TakeHangs, PeekHangs;
    assert FreeWorkers(CFG, s, []) == s;
  }

  function TimedRun(): seq<Event> { Run1(1000, false) + [Connect(1)] + [Brief()] }

  lemma Waits2() returns (s: State, j: Id)
    ensures Leads(CFG, TimedRun(), s) && Waiting2(s, j) && 1 in s.cons && s.cons[1] == IDLE
  {
    hide Leads, Step, Enabled, NewJob, Waiting2, Timed2, Running1;
    var s0, con := Scene3(1000, false);
    var s1 := Comes2(s0, con);
    Then(CFG, Run1(1000, false), s0, Connect(1));
    LeadsInv(CFG, Run1(1000, false) + [Connect(1)], s1);
    j := s1.nextJob;
    s := Briefly(s1);
    Then(CFG, Run1(1000, false) + [Connect(1)], s1, Brief());
  }

  lemma Comes2(s: State, con: Con) returns (t: State)
    requires Running1(s, 1000, false, con) && !con.dead && !con.removed
    ensures Enabled(CFG, s, Connect(1)) && t == Step(CFG, s, Connect(1)) && Timed2(t)
    ensures 1 in t.cons && t.cons[1] == IDLE
    ensures t.jobs.Keys == {0} && List(t.jobClients, 0) == []
  {
    hide Step, Enabled, Handle, UniqueKey, Truncate, CString;
    ConnectIs(CFG, s, 1);
    t := Step(CFG, s, Connect(1));
    assert IDLE.(exceptions := false) == IDLE;
    assert t.cons.Keys == {0, 1};
  }

  /** GRAB_JOB comes upon an ignored job while another runs under a timeout: that one still runs, and nothing is left to
      end it. */
  lemma TimeoutDeleted() returns (t: State)
    ensures RunsTo(CFG, TimedRun() + [Disconnect(1), Cleanup(1), Grab(0, true)], t)
    ensures 0 in t.jobs && RunsOn(t, 0, 0) && 0 in t.cons && t.cons[0].timer == None
  {
    hide Leads, RunsTo, Step, Enabled, Waiting2, Ignored2, RunsOn;
    var s0, j := Waits2();
    var s1 := Goes(s0, 1);
    Then(CFG, TimedRun(), s0, Disconnect(1));
    LeadsInv(CFG, TimedRun() + [Disconnect(1)], s1);
    var s2 := Cleans2(s0, s1, j);
    Then(CFG, TimedRun() + [Disconnect(1)], s1, Cleanup(1));
    LeadsInv(CFG, TimedRun() + [Disconnect(1)] + [Cleanup(1)], s2);
    t := Untimes(s2, j);
    Ends(CFG, TimedRun() + [Disconnect(1)] + [Cleanup(1)], s2, Grab(0, true));
    assert TimedRun() + [Disconnect(1)] + [Cleanup(1)] + [Grab(0, true)] ==
             TimedRun() + [Disconnect(1), Cleanup(1), Grab(0, true)];
  }

  lemma Untimes(s: State, j: Id) returns (t: State)
    requires Ignored2(s, j) && Inv(CFG, s, BARE)
    ensures Enabled(CFG, s, Grab(0, true)) && t == Step(CFG, s, Grab(0, true))
    ensures 0 in t.jobs && RunsOn(t, 0, 0) && 0 in t.cons && t.cons[0].timer == None
  {
    hide Inv, Step, TakeHangs, PeekHangs, RunsOn;
    TakeEnds(CFG, Awake(s, 0), 0);
    t := Step(CFG, s, Grab(0, true));
    assert T.Eligible(s, 0, j) by { assert s.workers[0].con == 0; }
    assert forall a :: !T.Wanted(s, 0, a);
    A.GrabAnswers(CFG, s, BARE, 0);
    StillRuns(s, j);
  }

  lemma StillRuns(s: State, j: Id)
    requires Ignored2(s, j) && Inv(CFG, s, BARE) && Enabled(CFG, s, Grab(0, true)) && forall a :: !T.Wanted(s, 0, a)
    ensures var t := Step(CFG, s, Grab(0, true)); 0 in t.jobs && RunsOn(t, 0, 0)
  {
    hide Inv, Take, T.Wanted, TakeHangs, PeekHangs;
    var s0 := Awake(s, 0);
    AwakeInv(CFG, s, BARE, 0);
    T.TakeBest(CFG, s0, BARE, 0);
    forall a: Id { R.SameBest(s, s0, 0, a); }
    TakeThins(CFG, s0, 0);
    R.TakeAside(CFG, s0, BARE, 0, 0);
    TakeInvs(s0);
    A.RunnerFn(CFG, Take(CFG, s0, 0).0, BARE, 0);
  }

  lemma TakeInvs(s: State)
    requires Inv(CFG, s, BARE) && Take(CFG, s, 0).1.None?
    ensures Inv(CFG, Take(CFG, s, 0).0, BARE)
  {
    hide Inv, Take;
    C.TakeInv(CFG, s, BARE, 0);
  }
}
