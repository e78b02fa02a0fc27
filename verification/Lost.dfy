/** Runs at whose end a client waits for a job that is gone, and was told nothing. */
module Lost {
  import opened Seqs
  import opened Scheduler
  import opened Uniques
  import opened Traces
  import opened Invariant
  import opened JobOps
  import opened Selection
  import opened Commands
  import opened Steps
  import opened Effects
  import opened Scenes
  import opened Corners
  import opened Attendance

  // A job that its only client leaves

  const LEFT := IDLE.(dead := true)

  /** Client 0, of connection 1, waits for job 0. */
  ghost predicate Waits1(s: State) {
    && s.clients == map[0 := Client(1, 0)] && List(s.conClients, 1) == [0] && List(s.jobClients, 0) == [0]
         && 0 in s.jobs
    && s.cons == map[0 := IDLE, 1 := IDLE] && List(s.conWorkers, 1) == []
  }

  /** The job is abandoned: nobody waits for it, and it is ignored. */
  ghost predicate Abandons(s: State, t: State) {
    && t == s.(cons := t.cons, jobs := t.jobs, clients := map[], conClients := t.conClients, jobClients := t.jobClients)
    && 0 in s.jobs && t.jobs == s.jobs[0 := s.jobs[0].(ignore := true, queued := false)]
    && t.cons == map[0 := IDLE, 1 := LEFT.(removed := true)] && List(t.jobClients, 0) == []
  }

  lemma Dies(s: State) returns (t: State)
    requires Waits1(s)
    ensures Enabled(CFG, s, Disconnect(1)) && t == Step(CFG, s, Disconnect(1))
              && t == s.(cons := map[0 := IDLE, 1 := LEFT])
  {
    t := Step(CFG, s, Disconnect(1));
    assert t == s.(cons := s.cons[1 := LEFT]);
    assert s.cons[1 := LEFT] == map[0 := IDLE, 1 := LEFT];
  }

  lemma FreeOnly(s: State)
    requires s.clients == map[0 := Client(1, 0)] && List(s.conClients, 1) == [0] && List(s.jobClients, 0) == [0]
               && 0 in s.jobs
    ensures var t := FreeClients(s, [0]);
            && t == s.(jobs := s.jobs[0 := s.jobs[0].(ignore := true, queued := false)], clients := map[],
                 conClients := t.conClients,
                       jobClients := t.jobClients)
            && List(t.jobClients, 0) == []
  {
    assert [0][1..] == [] && Remove([0], 0) == [] && s.clients - {0} == map[];
    assert FreeClients(s, [0]) == FreeClient(s, 0);
  }

  lemma Leaves1(s: State, s0: State) returns (t: State)
    requires Waits1(s0) && s == s0.(cons := map[0 := IDLE, 1 := LEFT])
    ensures Enabled(CFG, s, Cleanup(1)) && t == Step(CFG, s, Cleanup(1)) && Abandons(s0, t)
  {
    hide FreeClients;
    t := Step(CFG, s, Cleanup(1));
    FreeOnly(s);
    assert FreeWorkers(CFG, s, []) == s;
    assert t == SetCon(FreeClients(s, [0]), 1, LEFT.(removed := true));
    assert s.cons[1 := LEFT.(removed := true)] == map[0 := IDLE, 1 := LEFT.(removed := true)];
  }

  lemma ConnectSecond(s: State) returns (t: State)
    requires s.cons == map[0 := IDLE]
    ensures Enabled(CFG, s, Connect(1)) && t == Step(CFG, s, Connect(1)) && t == s.(cons := map[0 := IDLE, 1 := IDLE])
  {
    hide Step, Enabled;
    ConnectIs(CFG, s, 1);
    t := Step(CFG, s, Connect(1));
    assert map[0 := IDLE][1 := IDLE.(exceptions := false)] == map[0 := IDLE, 1 := IDLE];
  }

  // A client attached to an ignored job

  function Ask(c: Id): Event { Submit(c, "f", "u", "", High, 0, Foreground) }

  function AskedJob(): Job { NewJob(CFG, 0, "f", "u", "", High, 0) }

  /** Job 0 waits for the worker of connection 0. */
  ghost predicate Asked1(s: State) {
    && s.workers == map[0 := Worker(0, "f", 0)] && List(s.conWorkers, 0) == [0] && "f" in s.fns
         && s.fns["f"].jobCount == 1
    && s.fifo == map[("f", High) := [0]] && s.clock == 0 && s.jobs.Keys == {0} && s.jobs[0].spec == AskedJob().spec
  }

  ghost predicate Asked(s: State) { Asked1(s) && s.nextClient == 1 && s.out == [Created(1, 0)] }

  lemma Asks() returns (s: State)
    ensures Leads(CFG, Worker1(0) + [Connect(1)] + [Ask(1)], s) && Asked(s) && Waits1(s)
  {
    hide Leads, Step, Enabled, NewJob;
    var s0 := Scene1(0);
    var s1 := ConnectSecond(s0);
    Then(CFG, Worker1(0), s0, Connect(1));
    assert Quiet(s1, "f");
    Unknown(s1);
    var s2, s3 := SubmitIs(CFG, s1, 1, "f", "u", "", High, 0, Foreground);
    Then(CFG, Worker1(0) + [Connect(1)], s1, Ask(1));
    s := Step(CFG, s1, Ask(1));
    AskedIs(s0, s1, s2, s3, s);
  }

  lemma Unknown(s: State)
    requires s.uniqueIx == map[]
    ensures FindEqual(CFG, s, "f", "u", "").None?
  {}

  lemma AskedIs(s0: State, s1: State, s2: State, s3: State, s: State)
    requires Registered1(s0, 0) && s1 == s0.(cons := map[0 := IDLE, 1 := IDLE]) && List(s0.conWorkers, 1) == []
    requires Enters(CFG, s1, s2, AskedJob().(queued := false)) && Attached(s2, s3, 1, 0)
               && s == s3.(out := s3.out + [Created(1, 0)])
    ensures Asked(s) && Waits1(s)
  {
    hide Handle, UniqueKey, CString, Indexes;
    assert HomeOf(AskedJob()) == ("f", High) && List(s1.fifo, ("f", High)) + [0] == [0];
    assert [0] + List(s2.conClients, 1) == [0] && [0] + List(s2.jobClients, 0) == [0];
  }

  /** Connection 0 asks for the job that was abandoned: its client is attached to it. */
  ghost predicate Joined(s: State) {
    && Asked1(s) && s.clients == map[1 := Client(0, 0)] && s.jobs[0].ignore && 0 in s.cons && s.cons[0] == IDLE
    && s.out == [Created(1, 0), Created(0, 0)]
  }

  lemma Joins(s0: State, s: State) returns (t: State)
    requires Asked(s0) && Abandons(s0, s) && Inv(CFG, s, BARE)
    ensures Enabled(CFG, s, Ask(0)) && t == Step(CFG, s, Ask(0)) && Joined(t)
  {
    hide Step, Enabled, NewJob, Inv, FindEqual;
    Indexed(CFG, s, BARE);
    assert |CString("u")| < MAX_UNIQUE_SIZE by { assert CString("u") == "u"; }
    FoundAgain(CFG, s, 0, "f", "u", "", High, 0);
    Found(CFG, s, "f", "u", "");
    var s1 := JoinIs(CFG, s, 0, "f", "u", "", High, 0);
    t := Step(CFG, s, Ask(0));
    assert s.clients[1 := Client(0, 0)] == map[1 := Client(0, 0)];
  }

  /** Job 0 is what GRAB_JOB comes upon. */
  lemma Meets(s: State)
    requires Joined(s)
    ensures Pick(CFG, Awake(s, 0), 0, PRIORITIES).1 == Some(0) && Enabled(CFG, s, Grab(0, true))
  {
    hide NewJob, TakeHangs, PeekHangs, Pick;
    AskedDue();
    assert Classify(s, 0, High).Ready? && FirstReady(s, [0], High) == 0;
    assert Offers(s, 0, 0, 0);
    AwakeOffers(s, 0, 0, 0);
    PickIs(CFG, Awake(s, 0), 0, 0, 0);
    TakeEnds(CFG, Awake(s, 0), 0);
  }

  lemma AskedDue()
    ensures AskedJob().spec.when == 0
  {}

  /** Whom a grab does not tell, and whose record it keeps, is settled by the search for a job. */
  lemma GrabTells(s: State, c: Id, cl: Id)
    requires c in s.cons
    ensures var t, u := Take(CFG, Awake(s, c), c).0, GrabJob(CFG, s, c, true);
            u.clients == t.clients && (Closed(u.out, cl) <==> Closed(t.out, cl))
  {
    hide Take, Awake, Closed, ArmTimer;
    var (t, j) := Take(CFG, Awake(s, c), c);
    ClosedEmit(t.out, NoJob(c), cl);
    if j.Some? {
      ClosedEmit(t.out, Assign(c, j.value), cl);
      ArmOnly(Emit(t, Assign(c, j.value)), c, j.value);
    }
  }

  function AskRun(): seq<Event> { Worker1(0) + [Connect(1)] + [Ask(1)] + [Disconnect(1)] + [Cleanup(1)] + [Ask(0)] }

  lemma JoinedScene() returns (s: State)
    ensures Leads(CFG, AskRun(), s) && Joined(s)
  {
    hide Leads, Step, Enabled, Asked, Waits1, Abandons, Joined;
    var s0 := Asks();
    var s1 := Dies(s0);
    Then(CFG, Worker1(0) + [Connect(1)] + [Ask(1)], s0, Disconnect(1));
    var s2 := Leaves1(s1, s0);
    Then(CFG, Worker1(0) + [Connect(1)] + [Ask(1)] + [Disconnect(1)], s1, Cleanup(1));
    LeadsInv(CFG, Worker1(0) + [Connect(1)] + [Ask(1)] + [Disconnect(1)] + [Cleanup(1)], s2);
    s := Joins(s0, s2);
    Then(CFG, Worker1(0) + [Connect(1)] + [Ask(1)] + [Disconnect(1)] + [Cleanup(1)], s2, Ask(0));
  }

  /** A client asks for a job that was abandoned and not yet discarded. It is attached to the job, and when
      a worker comes upon the job, the client's record goes with it and the client is told nothing. */
  lemma AsksForAbandoned() returns (s: State, t: State)
    ensures RunsTo(CFG, [Connect(0), CanDo(0, "f", 0), Connect(1), Ask(1), Disconnect(1), Cleanup(1), Ask(0)], s)
              && 1 in s.clients
    ensures RunsTo(CFG, [Connect(0), CanDo(0, "f", 0), Connect(1), Ask(1), Disconnect(1), Cleanup(1), Ask(0),
              Grab(0, true)], t)
    ensures 1 !in t.clients && !Closed(t.out, 1)
  {
    hide Leads, Step, Enabled, RunsTo, Inv, Pick;
    s := JoinedScene();
    LeadsTo(CFG, AskRun(), s);
    LeadsInv(CFG, AskRun(), s);
    Meets(s);
    Ends(CFG, AskRun(), s, Grab(0, true));
    t := Step(CFG, s, Grab(0, true));
    Forgets(s, t);
    assert AskRun() == [Connect(0), CanDo(0, "f", 0), Connect(1), Ask(1), Disconnect(1), Cleanup(1), Ask(0)];
    assert AskRun() + [Grab(0, true)] ==
           [Connect(0), CanDo(0, "f", 0), Connect(1), Ask(1), Disconnect(1), Cleanup(1), Ask(0), Grab(0, true)];
  }

  lemma Forgets(s: State, t: State)
    requires Joined(s) && Inv(CFG, s, BARE) && Pick(CFG, Awake(s, 0), 0, PRIORITIES).1 == Some(0)
    requires Enabled(CFG, s, Grab(0, true)) && t == Step(CFG, s, Grab(0, true))
    ensures 1 !in t.clients && !Closed(t.out, 1)
  {
    hide Inv, Pick, Take, GrabJob, TakeHangs, PeekHangs;
    AwakeInv(CFG, s, BARE, 0);
    TakeForgets(CFG, Awake(s, 0), 0, 0, 1);
    GrabTells(s, 0, 1);
  }

  // A job in the way of another

  const LOW := Submit(1, "g", "", "", Low, 0, Foreground)
  const HIGH := Submit(0, "f", "", "", High, 0, Foreground)

  /** Jobs 0 of low priority, for "g", and 1 of high priority, for "f". */
  function LowJob(): Job { NewJob(CFG, 0, "g", "", "", Low, 0) }
  function HighJob(): Job { NewJob(CFG, 1, "f", "", "", High, 0) }

  ghost predicate LowAsked(s: State) {
    && TwoWorkers(s) && s.fns["g"].jobCount == 1 && s.fns["f"].jobCount == 0 && s.fifo == map[("g", Low) := [0]]
    && s.jobs == map[0 := LowJob()] && s.nextJob == 1 && s.nextClient == 1 && s.out == [Created(1, 0)]
  }

  function PairRun(): seq<Event> { [Connect(0), CanDo(0, "f", 0), CanDo(0, "g", 0)] }

  lemma AsksLow() returns (s: State)
    ensures Leads(CFG, PairRun() + [Connect(1)] + [LOW], s) && LowAsked(s) && Waits1(s)
  {
    hide Leads, Step, Enabled, NewJob;
    var s0 := Pair(CFG);
    var s1 := ConnectSecond(s0);
    Then(CFG, PairRun(), s0, Connect(1));
    assert Quiet(s1, "g");
    var s2, s3 := SubmitIs(CFG, s1, 1, "g", "", "", Low, 0, Foreground);
    Then(CFG, PairRun() + [Connect(1)], s1, LOW);
    s := Step(CFG, s1, LOW);
    LowIs(s1, s2, s3, s);
  }

  lemma LowIs(s1: State, s2: State, s3: State, s: State)
    requires TwoWorkers(s1) && s1.fns["g"].jobCount == 0 && s1.fns["f"].jobCount == 0 && s1.fifo == map[]
               && s1.jobs == map[]
    requires s1.nextJob == 0 && s1.nextClient == 0 && s1.out == [] && s1.clients == map[] && s1.conClients == map[]
               && s1.jobClients == map[]
    requires s1.cons == map[0 := IDLE, 1 := IDLE] && List(s1.conWorkers, 1) == []
    requires Enters(CFG, s1, s2, LowJob().(queued := false)) && Attached(s2, s3, 1, 0)
               && s == s3.(out := s3.out + [Created(1, 0)])
    ensures LowAsked(s) && Waits1(s)
  {
    hide Handle, UniqueKey, CString, Indexes;
    assert HomeOf(LowJob()) == ("g", Low) && List(s1.fifo, ("g", Low)) + [0] == [0]
           && LowJob().(queued := false) == LowJob();
    assert [0] + List(s2.conClients, 1) == [0] && [0] + List(s2.jobClients, 0) == [0];
  }

  /** The job of high priority is wanted, the one of low priority abandoned. */
  ghost predicate BothAsked(s: State) {
    && TwoWorkers(s) && s.fns["g"].jobCount == 1 && s.fns["f"].jobCount == 1
         && s.fifo == map[("g", Low) := [0], ("f", High) := [1]]
    && s.jobs == map[0 := LowJob().(ignore := true, queued := false), 1 := HighJob()]
    && s.clients == map[1 := Client(0, 1)] && s.out == [Created(1, 0), Created(0, 1)] && 0 in s.cons
         && s.cons[0] == IDLE
  }

  lemma AsksHigh(s0: State, s: State) returns (t: State)
    requires LowAsked(s0) && Abandons(s0, s)
    ensures Enabled(CFG, s, HIGH) && t == Step(CFG, s, HIGH) && BothAsked(t)
  {
    hide Step, Enabled, NewJob;
    assert Quiet(s, "f");
    var s1, s2 := SubmitIs(CFG, s, 0, "f", "", "", High, 0, Foreground);
    t := Step(CFG, s, HIGH);
    HighIs(s0, s, s1, s2, t);
  }

  lemma HighIs(s0: State, s: State, s1: State, s2: State, t: State)
    requires LowAsked(s0) && Abandons(s0, s)
    requires Enters(CFG, s, s1, HighJob().(queued := false)) && Attached(s1, s2, 0, 1)
               && t == s2.(out := s2.out + [Created(0, 1)])
    ensures BothAsked(t)
  {
    hide NewJob, Indexes;
    HighHome();
    HighTables(s0, s, s1);
    assert TwoWorkers(t);
    assert s.clients[1 := Client(0, 1)] == map[1 := Client(0, 1)];
  }

  lemma HighHome()
    ensures HomeOf(HighJob()) == ("f", High) && HighJob().(queued := false) == HighJob()
  {}

  lemma HighTables(s0: State, s: State, s1: State)
    requires LowAsked(s0) && Abandons(s0, s) && Enters(CFG, s, s1, HighJob())
    ensures s1.fifo == map[("g", Low) := [0], ("f", High) := [1]]
    ensures s1.jobs == map[0 := LowJob().(ignore := true, queued := false), 1 := HighJob()]
  {
    hide NewJob, Indexes;
    HighHome();
    assert List(s.fifo, ("f", High)) + [1] == [1];
    assert s.fifo[("f", High) := [1]] == map[("g", Low) := [0], ("f", High) := [1]];
  }

  /** PRE_SLEEP looks at job 0, and makes GRAB_JOB's search remove job 1. */
  lemma Confuses(s: State)
    requires BothAsked(s)
    ensures Look(s, List(s.conWorkers, 0)) == Some(0)
    ensures Take(CFG, SetJob(s, 0, s.jobs[0].(ignore := false)), 0).1 == Some(1)
  {
    hide NewJob, Pick, Take;
    JobsDue();
    LooksLow(s);
    var t := SetJob(s, 0, s.jobs[0].(ignore := false));
    assert Classify(t, 1, High).Skip? && Classify(t, 0, High).Ready?;
    assert [1, 0][1..] == [0] && FirstReady(t, [0], High) == 0 && FirstReady(t, [1, 0], High) == 1;
    assert Offers(t, 0, 0, 1);
    PickIs(CFG, t, 0, 0, 1);
    Unignored(CFG, t, 0, 1);
  }

  lemma JobsDue()
    ensures LowJob().spec.when == 0 && HighJob().spec.when == 0 && !HighJob().ignore
  {}

  lemma LooksLow(s: State)
    requires BothAsked(s) && Due(s.jobs[0], 0)
    ensures Look(s, [1, 0]) == Some(0)
  {
    hide NewJob;
    assert PRIORITIES[1..] == [Normal, Low] && PRIORITIES[1..][1..] == [Low] && PRIORITIES[0] == High;
    assert LookAt(s, 1, [Low]) == Some(0);
    assert LookAt(s, 1, [Normal, Low]) == Some(0);
    assert LookAt(s, 1, PRIORITIES) == Some(0);
  }

  function BothRun(): seq<Event> { PairRun() + [Connect(1)] + [LOW] + [Disconnect(1)] + [Cleanup(1)] + [HIGH] }

  lemma BothScene() returns (s: State)
    ensures Leads(CFG, BothRun(), s) && BothAsked(s)
  {
    hide Leads, Step, Enabled, LowAsked, Waits1, Abandons, BothAsked, PairRun;
    var s0 := AsksLow();
    var s1 := Dies(s0);
    Then(CFG, PairRun() + [Connect(1)] + [LOW], s0, Disconnect(1));
    var s2 := Leaves1(s1, s0);
    Then(CFG, PairRun() + [Connect(1)] + [LOW] + [Disconnect(1)], s1, Cleanup(1));
    s := AsksHigh(s0, s2);
    Then(CFG, PairRun() + [Connect(1)] + [LOW] + [Disconnect(1)] + [Cleanup(1)], s2, HIGH);
  }

  /** A worker goes to sleep while an abandoned job of low priority waits for its first function, and a
      job that a client waits for, of high priority, for its second: the latter job is discarded, and
      its client is told nothing. */
  lemma SleepsOverAbandoned() returns (s: State, t: State)
    ensures RunsTo(CFG, [Connect(0), CanDo(0, "f", 0), CanDo(0, "g", 0), Connect(1), LOW, Disconnect(1), Cleanup(1),
              HIGH], s)
    ensures RunsTo(CFG, [Connect(0), CanDo(0, "f", 0), CanDo(0, "g", 0), Connect(1), LOW, Disconnect(1), Cleanup(1),
              HIGH, PreSleep(0)], t)
    ensures 1 in s.clients && 1 !in t.clients && !Closed(t.out, 1)
  {
    hide Leads, Step, Enabled, RunsTo, Inv, Take, Look;
    s := BothScene();
    LeadsTo(CFG, BothRun(), s);
    LeadsInv(CFG, BothRun(), s);
    t := Discards1(s);
    Ends(CFG, BothRun(), s, PreSleep(0));
    assert BothRun() == [Connect(0), CanDo(0, "f", 0), CanDo(0, "g", 0), Connect(1), LOW, Disconnect(1), Cleanup(1),
           HIGH];
    assert BothRun() + [PreSleep(0)] ==
           [Connect(0), CanDo(0, "f", 0), CanDo(0, "g", 0), Connect(1), LOW, Disconnect(1), Cleanup(1), HIGH,
               PreSleep(0)];
  }

  lemma Discards1(s: State) returns (t: State)
    requires BothAsked(s) && Inv(CFG, s, BARE)
    ensures Enabled(CFG, s, PreSleep(0)) && t == Step(CFG, s, PreSleep(0)) && 1 !in t.clients && !Closed(t.out, 1)
  {
    hide Inv, Take, Look, Peek, TakeHangs, PeekHangs;
    Confuses(s);
    PeekEnds(CFG, s, 0);
    NoneClosed(s.out, 1);
    PeekForgets(CFG, s, 0, 0, 1, 1);
    t := Sleep(CFG, s, 0);
    ClosedEmit(Peek(CFG, s, 0).0.out, Noop(0), 1);
  }

  lemma NoneClosed(out: seq<Output>, cl: Id)
    requires forall i :: 0 <= i < |out| ==> !out[i].Work?
    ensures !Closed(out, cl)
  {}
}
