/** Whether a client hears how its job ended. The record of a client goes only when the client was told,
    or when its connection is cleaned up, as long as two things do not happen that the server allows: a
    client that is attached to a job already ignored, and a `peek` that discards a job somebody waits for. */
module Attendance {
  import opened Seqs
  import opened Scheduler
  import opened Tables
  import opened Traces
  import opened Wakeups
  import opened Invariant
  import opened Records
  import opened Notices
  import opened JobOps
  import opened Selection
  import opened Choices
  import opened Commands
  import opened Steps
  import opened Taking
  import opened Thinning
  import opened Losses

  /** Whoever still waits for an ignored job was told how it ended. */
  ghost predicate Attended(s: State) {
    forall cl :: cl in s.clients && s.clients[cl].job in s.jobs && s.jobs[s.clients[cl].job].ignore ==>
        Closed(s.out, cl)
  }

  /** More was sent from `s` to `t`, and packets about work only to clients that had been given a number. */
  ghost predicate Extends(s: State, t: State) {
    && s.out <= t.out && s.nextClient <= t.nextClient
    && forall i :: |s.out| <= i < |t.out| && t.out[i].Work? ==> t.out[i].client < t.nextClient
  }

  /** From `s` to `t` the record of a client went only when the client was told, or when its connection
      was one of `gone`. */
  ghost predicate Kept(s: State, t: State, gone: set<Id>) {
    && Extends(s, t)
    && forall cl :: cl in s.clients ==>
         (cl in t.clients && t.clients[cl] == s.clients[cl]) || Closed(t.out, cl) || s.clients[cl].con in gone
  }

  ghost predicate Tends(s: State, t: State, gone: set<Id>) { Kept(s, t, gone) && Attended(t) }

  lemma ClosedLater(a: seq<Output>, b: seq<Output>, cl: Id)
    requires a <= b && Closed(a, cl)
    ensures Closed(b, cl)
  {
    var i :| 0 <= i < |a| && a[i].Work? && a[i].client == cl && Terminal(a[i].kind);
    assert b[i] == a[i];
  }

  lemma KeptTwice(s: State, t: State, u: State, a: set<Id>, b: set<Id>)
    requires Kept(s, t, a) && Kept(t, u, b)
    ensures Kept(s, u, a + b)
  {
    hide Closed;
    forall cl | cl in s.clients
        ensures (cl in u.clients && u.clients[cl] == s.clients[cl]) || Closed(u.out, cl) || s.clients[cl].con in a + b {
      if Closed(t.out, cl) { ClosedLater(t.out, u.out, cl); }
    }
  }

  lemma TendsTwice(s: State, t: State, u: State)
    requires Kept(s, t, {}) && Tends(t, u, {})
    ensures Tends(s, u, {})
  {
    hide Kept, Attended;
    var none: set<Id> := {};
    assert none + none == none;
    KeptTwice(s, t, u, none, none);
  }

  /** A step that changes no client, and makes nobody ignored, tends to all. */
  lemma CalmTends(s: State, t: State)
    requires Attended(s) && t.clients == s.clients && Extends(s, t)
    requires forall j :: j in t.jobs && t.jobs[j].ignore ==> j in s.jobs && s.jobs[j].ignore
    ensures Tends(s, t, {})
  {
    hide Closed;
    forall cl | Closed(s.out, cl) ensures Closed(t.out, cl) { ClosedLater(s.out, t.out, cl); }
  }

  // What is told

  ghost predicate Below(cls: seq<Id>, n: Id) { forall i :: 0 <= i < |cls| ==> cls[i] < n }

  lemma {:induction false} FanOutGrows(s: State, cls: seq<Id>, j: Id, kind: Kind)
    requires Below(cls, s.nextClient)
    ensures Extends(s, FanOut(s, cls, j, kind))
    ensures Terminal(kind) ==> forall cl :: cl in cls ==> Closed(FanOut(s, cls, j, kind).out, cl)
    decreases |cls|
  {
    hide Closed, Packet, Accepts;
    if cls != [] {
      var o := Packet(s, cls[0], j, kind);
      assert cls == [cls[0]] + cls[1..];
      FanOutGrows(Emit(s, o), cls[1..], j, kind);
      var t := FanOut(s, cls, j, kind);
      assert t.out[|s.out|] == (s.out + [o])[|s.out|];
      ClosedEmit(s.out, o, cls[0]);
      if Terminal(kind) { ClosedLater(s.out + [o], t.out, cls[0]); }
    }
  }

  /** The clients of a job have numbers. */
  lemma Numbered(cfg: Config, s: State, x: Phase, j: Id)
    requires Inv(cfg, s, x)
    ensures Below(List(s.jobClients, j), s.nextClient)
  {
    hide ListsOk, RefsOk, CountsOk;
    JobClients(cfg, s, x.floating, j);
    OldClients(s, x.floating);
    var cls := List(s.jobClients, j);
    forall i | 0 <= i < |cls| ensures cls[i] < s.nextClient { assert cls[i] in cls; }
  }

  lemma {:induction false} WakeGrows(s: State, ws: seq<Id>, limit: nat, sent: nat)
    ensures Extends(s, WakeLoop(s, ws, limit, sent).0)
    decreases |ws|
  {
    hide Life, Accepts, Wakeable;
    if ws != [] {
      WakeGrows(WakeOne(s, ws[0]), ws[1..], limit, if Wakeable(s, ws[0]) then sent + 1 else sent);
    }
  }

  lemma EnqueueCalm(cfg: Config, s: State, j: Id)
    ensures var t := Enqueue(cfg, s, j); t.jobs == s.jobs && t.clients == s.clients && Extends(s, t)
  {
    hide WakeLoop, Append, Life, Accepts;
    if j in s.jobs { WakeGrows(s, List(s.fnWorkers, s.jobs[j].spec.fn), cfg.workerWakeup, 0); }
  }

  // Freeing a job

  lemma FreeJobTends(cfg: Config, s: State, x: Phase, j: Id)
    requires Inv(cfg, s, x) && j in s.jobs && s.jobs[j].spec.fn in s.fns && Attended(s)
    requires forall cl :: cl in List(s.jobClients, j) ==> Closed(s.out, cl)
    ensures var t := FreeJob(cfg, s, j); Tends(s, t, {}) && t.clients.Keys <= s.clients.Keys && t.out == s.out
  {
    hide Inv, FreeJob, Closed;
    FreeJobOnly(cfg, s, x, j);
    forall cl: Id { FreeJobClients(cfg, s, j, cl); }
    var t := FreeJob(cfg, s, j);
    assert t.out == s.out && t.nextClient == s.nextClient by { FreeJobClients(cfg, s, j, 0); }
  }

  lemma DropTends(cfg: Config, s: State, x: Phase, j: Id)
    requires Inv(cfg, s, x) && !x.traced && x.spent <= {j} && j in s.jobs && s.jobs[j].spec.fn in s.fns && Attended(s)
    ensures Tends(s, Drop(cfg, s, j), {})
  {
    hide Inv, FanOut, QueueDone, FreeJob, Closed, Tends, Attended, Kept, Accepts;
    var cls := List(s.jobClients, j);
    var s1 := FanOut(s, cls, j, Fail);
    Numbered(cfg, s, x, j);
    FanOutGrows(s, cls, j, Fail);
    UntracedInv(cfg, s, x, cls, j, Fail);
    QueueDoneInv(cfg, s1, x, j);
    CalmTends(s, QueueDone(s1, j));
    Parted(s, QueueDone(s1, j), {});
    FreeJobTends(cfg, QueueDone(s1, j), x.(spent := {j}), j);
    TendsTwice(s, QueueDone(s1, j), Drop(cfg, s, j));
  }

  lemma Parted(s: State, t: State, gone: set<Id>)
    requires Tends(s, t, gone)
    ensures Kept(s, t, gone) && Attended(t) && Extends(s, t)
  {}

  // Queueing again

  lemma JobQueueTends(cfg: Config, s: State, x: Phase, j: Id)
    requires Inv(cfg, s, x) && !x.traced && x.floating == {} && x.spent == {} && j in s.runs && Attended(s)
    ensures Tends(s, JobQueue(cfg, s, j), {})
  {
    hide Inv, Detach, Enqueue, Drop, Exhausted, Again, Attended, Tends, Kept;
    Floating(cfg, s, x, j);
    var s1 := Retried(s, j);
    CalmTends(s, s1);
    Parted(s, s1, {});
    if Exhausted(cfg, s1.jobs[j].retries) {
      RetriedSpent(cfg, s, x, j);
      DropTends(cfg, s1, x.(spent := {j}), j);
      TendsTwice(s, s1, Drop(cfg, s1, j));
    } else {
      EnqueueCalm(cfg, Detach(s1, j), j);
      CalmTends(s1, Enqueue(cfg, Detach(s1, j), j));
      TendsTwice(s, s1, Enqueue(cfg, Detach(s1, j), j));
    }
  }

  lemma {:induction false} RequeueAllTends(cfg: Config, s: State, js: seq<Id>)
    requires Inv(cfg, s, BARE) && NoDup(js) && (forall j :: j in js ==> j in s.runs) && Attended(s)
    ensures Tends(s, RequeueAll(cfg, s, js), {})
    decreases |js|
  {
    hide Inv, JobQueue, NoDup, Life, Accepts, Attended, Tends, Kept;
    if js == [] {
      CalmTends(s, s);
    } else {
      HeadTail(js);
      Floating(cfg, s, BARE, js[0]);
      var t := JobQueue(cfg, s, js[0]);
      JobQueueInv(cfg, s, BARE, js[0]);
      JobQueueFrame(cfg, s, js[0]);
      JobQueueTends(cfg, s, BARE, js[0]);
      Parted(s, t, {});
      RequeueAllTends(cfg, t, js[1..]);
      TendsTwice(s, t, RequeueAll(cfg, t, js[1..]));
    }
  }

  lemma FreeWorkerTends(cfg: Config, s: State, w: Id)
    requires Inv(cfg, s, BARE) && w in s.workers && Attended(s)
    ensures Tends(s, FreeWorker(cfg, s, w), {})
  {
    hide Inv, RequeueAll, NoDup, Attended, Tends, Kept;
    RunningList(cfg, s, BARE, w);
    var t := RequeueAll(cfg, s, List(s.running, w));
    RequeueAllTends(cfg, s, List(s.running, w));
    Parted(s, t, {});
    CalmTends(t, DelWorker(t, w));
    TendsTwice(s, t, DelWorker(t, w));
  }

  lemma {:induction false} FreeWorkersTends(cfg: Config, s: State, ws: seq<Id>)
    requires Inv(cfg, s, BARE) && NoDup(ws) && (forall w :: w in ws ==> w in s.workers) && Attended(s)
    ensures Tends(s, FreeWorkers(cfg, s, ws), {})
    decreases |ws|
  {
    hide Inv, FreeWorker, NoDup, Life, Accepts, Attended, Tends, Kept;
    if ws == [] {
      CalmTends(s, s);
    } else {
      HeadTail(ws);
      var t := FreeWorker(cfg, s, ws[0]);
      FreeWorkerInv(cfg, s, BARE, ws[0]);
      FreeWorkerTends(cfg, s, ws[0]);
      Parted(s, t, {});
      FreeWorkersTends(cfg, t, ws[1..]);
      TendsTwice(s, t, FreeWorkers(cfg, t, ws[1..]));
    }
  }

  // Taking

  /** The clients of an ignored job were told. */
  lemma IgnoredTold(cfg: Config, s: State, x: Phase, j: Id)
    requires Inv(cfg, s, x) && Attended(s) && j in s.jobs && s.jobs[j].ignore
    ensures forall cl :: cl in List(s.jobClients, j) ==> Closed(s.out, cl)
  {
    hide ListsOk, RefsOk, CountsOk, Closed;
    JobClients(cfg, s, x.floating, j);
  }

  lemma {:induction false} TakeTends(cfg: Config, s: State, c: Id)
    requires Inv(cfg, s, BARE) && Attended(s)
    ensures var t := Take(cfg, s, c).0; Tends(s, t, {}) && Thins(s, t)
    decreases |s.jobs|
  {
    hide Inv, Pick, FreeJob, Fresh, Attended, Tends, Kept, Thins, Closed;
    var (s1, j) := Pick(cfg, s, c, PRIORITIES);
    PickInv(cfg, s, BARE, c, PRIORITIES);
    PickThins(cfg, s, c);
    PickCalm(s, s1);
    if j.Some? && s1.jobs[j.value].ignore {
      var x := Taken(BARE, j);
      FreshRuns(cfg, s1, c, j.value);
      Floating(cfg, s1, x, j.value);
      FreeJobInv(cfg, s1, x, j.value);
      var s2 := FreeJob(cfg, s1, j.value);
      ForgetInv(cfg, s2, BARE, j.value);
      FreeJobKeys(cfg, s1, j.value);
      Shrinks(s, s2, j.value);
      IgnoredTold(cfg, s1, x, j.value);
      FreeJobTends(cfg, s1, x, j.value);
      FreeJobThins(cfg, s1, x, j.value);
      Parted(s1, s2, {});
      TakeTends(cfg, s2, c);
      var t := Take(cfg, s2, c).0;
      TendsTwice(s1, s2, t);
      TendsTwice(s, s1, t);
      ThinsTwice(s1, s2, t);
      ThinsTwice(s, s1, t);
    }
  }

  lemma PickCalm(s: State, t: State)
    requires Thins(s, t) && t.clients == s.clients && Attended(s)
    ensures Tends(s, t, {}) && Kept(s, t, {}) && Attended(t)
  {
    hide Closed;
    CalmTends(s, t);
  }

  // Peeking

  lemma {:induction false} PeekTends(cfg: Config, s: State, c: Id)
    requires Inv(cfg, s, BARE) && Attended(s) && Undisturbed(cfg, s, c)
    ensures Tends(s, Peek(cfg, s, c).0, {})
    decreases |s.jobs|
  {
    hide Inv, Look, Take, FreeJob, Fresh, Attended, Tends, Kept, Thins, Closed, Undisturbed;
    var j := Look(s, List(s.conWorkers, c));
    if j.Some? && j.value in s.jobs && s.jobs[j.value].ignore {
      var s2 := PeekOnce(cfg, s, c, j.value);
      Parted(s, s2, {});
      PeekTends(cfg, s2, c);
      TendsTwice(s, s2, Peek(cfg, s2, c).0);
    } else {
      CalmTends(s, s);
    }
  }

  /** One round of `peek` that discards a job. */
  lemma PeekOnce(cfg: Config, s: State, c: Id, j: Id) returns (s2: State)
    requires Inv(cfg, s, BARE) && Attended(s) && Undisturbed(cfg, s, c)
    requires Look(s, List(s.conWorkers, c)) == Some(j) && j in s.jobs && s.jobs[j].ignore
    ensures |s2.jobs| < |s.jobs| && Peek(cfg, s, c) == Peek(cfg, s2, c)
    ensures Inv(cfg, s2, BARE) && Tends(s, s2, {}) && Undisturbed(cfg, s2, c)
  {
    hide Inv, Look, Take, FreeJob, Fresh, Attended, Tends, Kept, Thins, Closed, Undisturbed;
    var job := s.jobs[j].(ignore := false);
    var s0 := SetJob(s, j, job);
    FlagInv(cfg, s, BARE, j, job);
    CalmTends(s, s0);
    Parted(s, s0, {});
    UndisturbedRound(cfg, s, c, j);
    TakeInv(cfg, s0, BARE, c);
    TakeTends(cfg, s0, c);
    var s1 := Take(cfg, s0, c).0;
    var x := Taken(BARE, Some(j));
    Parted(s0, s1, {});
    FreshRuns(cfg, s1, c, j);
    Floating(cfg, s1, x, j);
    StillTold(cfg, s, s0, s1, x, j);
    s2 := FreeJob(cfg, s1, j);
    FreeJobTends(cfg, s1, x, j);
    FreeJobThins(cfg, s1, x, j);
    FreeJobInv(cfg, s1, x, j);
    ForgetInv(cfg, s2, BARE, j);
    FreeJobKeys(cfg, s1, j);
    Shrinks(s, s2, j);
    TendsTwice(s0, s1, s2);
    TendsTwice(s, s0, s2);
    ThinsTwice(s0, s1, s2);
  }

  /** The clients of the job that was ignored are still told. */
  lemma StillTold(cfg: Config, s: State, s0: State, s1: State, x: Phase, j: Id)
    requires Attended(s) && j in s.jobs && s.jobs[j].ignore && s0.clients == s.clients && s.out <= s0.out
    requires Kept(s0, s1, {}) && Thins(s0, s1) && Inv(cfg, s1, x)
    ensures forall cl :: cl in List(s1.jobClients, j) ==> Closed(s1.out, cl)
  {
    hide Closed, ListsOk, RefsOk, CountsOk;
    JobClients(cfg, s1, x.floating, j);
    forall cl | cl in List(s1.jobClients, j) ensures Closed(s1.out, cl) {
      if s1.clients[cl] == s.clients[cl] { ClosedLater(s.out, s1.out, cl); }
    }
  }

  // Clients that leave

  lemma FreeClientTends(cfg: Config, s: State, cl: Id, c: Id)
    requires Inv(cfg, s, BARE) && Attended(s) && (cl in s.clients ==> s.clients[cl].con == c)
    ensures Tends(s, FreeClient(s, cl), {c})
    ensures forall d :: d in FreeClient(s, cl).clients ==>
              d in s.clients && FreeClient(s, cl).clients[d] == s.clients[d]
  {
    hide Inv, Closed, FreeClient;
    var t := FreeClient(s, cl);
    FreeClientIs(s, cl);
    FreeClientInv(cfg, s, BARE, cl);
    forall d | d in t.clients && t.clients[d].job in t.jobs && t.jobs[t.clients[d].job].ignore
        ensures Closed(t.out, d) {
      Waits(cfg, t, d);
    }
  }

  lemma Waits(cfg: Config, s: State, cl: Id)
    requires Inv(cfg, s, BARE) && cl in s.clients
    ensures cl in List(s.jobClients, s.clients[cl].job)
  {
    hide ListsOk, RefsOk, CountsOk;
    JobClients(cfg, s, {}, s.clients[cl].job);
  }

  lemma {:induction false} FreeClientsTends(cfg: Config, s: State, cls: seq<Id>, c: Id)
    requires Inv(cfg, s, BARE) && Attended(s) && forall cl :: cl in cls && cl in s.clients ==> s.clients[cl].con == c
    ensures Tends(s, FreeClients(s, cls), {c})
    decreases |cls|
  {
    hide Inv, FreeClient, Attended, Tends, Kept;
    if cls == [] {
      CalmTends(s, s);
      Parted(s, s, {});
      Looser(s, s, {}, {c});
    } else {
      var t := FreeClient(s, cls[0]);
      FreeClientInv(cfg, s, BARE, cls[0]);
      FreeClientTends(cfg, s, cls[0], c);
      Parted(s, t, {c});
      assert cls == [cls[0]] + cls[1..];
      FreeClientsTends(cfg, t, cls[1..], c);
      Parted(t, FreeClients(t, cls[1..]), {c});
      KeptTwice(s, t, FreeClients(t, cls[1..]), {c}, {c});
      assert {c} + {c} == {c};
      Looser(s, FreeClients(t, cls[1..]), {c}, {c});
    }
  }

  lemma Looser(s: State, t: State, a: set<Id>, b: set<Id>)
    requires Kept(s, t, a) && Attended(t) && a <= b
    ensures Tends(s, t, b)
  {}

  lemma CleanUpTends(cfg: Config, s: State, c: Id)
    requires Inv(cfg, s, BARE) && Attended(s)
    ensures Tends(s, CleanUp(cfg, s, c), {c})
  {
    hide Inv, FreeWorkers, FreeClients, NoDup, Attended, Tends, Kept, Life, Accepts;
    ConWorkers(cfg, s, BARE, c);
    FreeWorkersTends(cfg, s, List(s.conWorkers, c));
    ResetInv(cfg, s, BARE, c);
    var s1 := FreeWorkers(cfg, s, List(s.conWorkers, c));
    Parted(s, s1, {});
    ConClients(cfg, s1, BARE, c);
    FreeClientsTends(cfg, s1, List(s1.conClients, c), c);
    var s2 := FreeClients(s1, List(s1.conClients, c));
    Parted(s1, s2, {c});
    var t := CleanUp(cfg, s, c);
    CalmTends(s2, t);
    Parted(s2, t, {});
    KeptTwice(s, s1, s2, {}, {c});
    KeptTwice(s, s2, t, {} + {c}, {});
    assert {} + {c} + {} == {c};
    Looser(s, t, {c}, {c});
  }

  // Commands

  lemma GrabTends(cfg: Config, s: State, c: Id, ok: bool)
    requires Inv(cfg, s, BARE) && Attended(s) && c in Live(s.cons)
    ensures Tends(s, GrabJob(cfg, s, c, ok), {})
  {
    hide Inv, Take, ArmTimer, JobQueue, Fresh, Attended, Tends, Kept, Thins;
    var s0 := Awake(s, c);
    AwakeInv(cfg, s, BARE, c);
    CalmTends(s, s0);
    Parted(s, s0, {});
    TakeInv(cfg, s0, BARE, c);
    TakeTends(cfg, s0, c);
    var (s1, j) := Take(cfg, s0, c);
    Parted(s0, s1, {});
    TendsTwice(s, s0, s1);
    Parted(s, s1, {});
    if j.None? {
      CalmTends(s1, Emit(s1, NoJob(c)));
      TendsTwice(s, s1, Emit(s1, NoJob(c)));
    } else if ok {
      ArmCalm(s1, c, j.value);
      CalmTends(s1, GrabJob(cfg, s, c, ok));
      TendsTwice(s, s1, GrabJob(cfg, s, c, ok));
    } else {
      FreshRuns(cfg, s1, c, j.value);
      JobQueueTends(cfg, s1, Taken(BARE, j), j.value);
      TendsTwice(s, s1, JobQueue(cfg, s1, j.value));
    }
  }

  lemma ArmCalm(s: State, c: Id, j: Id)
    ensures var t := ArmTimer(Emit(s, Assign(c, j)), c, j); t.jobs == s.jobs && t.clients == s.clients && Extends(s, t)
  {
    ArmOnly(Emit(s, Assign(c, j)), c, j);
    hide ArmTimer;
  }

  lemma ArmOnly(s: State, c: Id, j: Id)
    ensures var t := ArmTimer(s, c, j); t == s.(cons := t.cons)
  {
    hide Registered;
  }

  lemma SleepTends(cfg: Config, s: State, c: Id)
    requires Inv(cfg, s, BARE) && Attended(s) && Undisturbed(cfg, s, c)
    ensures Tends(s, Sleep(cfg, s, c), {})
  {
    hide Inv, Peek, Attended, Tends, Kept, Undisturbed;
    PeekTends(cfg, s, c);
    var s1 := Peek(cfg, s, c).0;
    Parted(s, s1, {});
    CalmTends(s1, Sleep(cfg, s, c));
    TendsTwice(s, s1, Sleep(cfg, s, c));
  }

  lemma ResultTends(cfg: Config, s: State, c: Id, h: string, kind: Kind, ok: bool)
    requires Inv(cfg, s, BARE) && Attended(s) && Terminal(kind)
    ensures Tends(s, WorkResult(cfg, s, c, h, kind, ok), {})
  {
    hide Inv, FanOut, QueueDone, FreeJob, JobGet, Attended, Tends, Kept, Closed, Accepts;
    var j := JobGet(cfg, s, h, Some(c));
    JobGets(cfg, s, h, Some(c));
    CalmTends(s, Emit(s, Error(c)));
    if j.Some? {
      var cls, s0 := List(s.jobClients, j.value), Emit(s, Accepted(c, j.value));
      var s1 := FanOut(s0, cls, j.value, kind);
      var s2 := QueueDone(s1, j.value);
      Numbered(cfg, s, BARE, j.value);
      FanOutGrows(s0, cls, j.value, kind);
      CalmTends(s, s1);
      CalmTends(s, s2);
      Parted(s, s2, {});
      UntracedAccept(cfg, s, BARE, c, j.value);
      UntracedInv(cfg, s0, BARE, cls, j.value, kind);
      QueueDoneInv(cfg, s1, BARE, j.value);
      Floating(cfg, s, BARE, j.value);
      FreeJobTends(cfg, s2, BARE.(spent := {j.value}), j.value);
      TendsTwice(s, s2, FreeJob(cfg, s2, j.value));
    }
  }

  lemma UpdateTends(cfg: Config, s: State, c: Id, h: string, kind: Kind)
    requires Inv(cfg, s, BARE) && Attended(s)
    ensures Tends(s, WorkUpdate(cfg, s, c, h, kind), {})
  {
    hide Inv, FanOut, JobGet, Attended, Tends, Closed, Accepts;
    var j := JobGet(cfg, s, h, Some(c));
    CalmTends(s, Emit(s, Error(c)));
    if j.Some? {
      Numbered(cfg, s, BARE, j.value);
      FanOutGrows(s, List(s.jobClients, j.value), j.value, kind);
      CalmTends(s, FanOut(s, List(s.jobClients, j.value), j.value, kind));
    }
  }

  lemma CancelTends(cfg: Config, s: State, h: string, ok: bool)
    requires Inv(cfg, s, BARE) && Attended(s)
    ensures Tends(s, CancelJob(cfg, s, h, ok), {})
  {
    hide Inv, FanOut, QueueDone, JobGet, Attended, Tends, Closed, Accepts;
    var j := JobGet(cfg, s, h, None);
    CalmTends(s, s);
    if j.Some? && j.value in s.jobs {
      var cls := List(s.jobClients, j.value);
      var s1 := FanOut(s, cls, j.value, Fail);
      Numbered(cfg, s, BARE, j.value);
      FanOutGrows(s, cls, j.value, Fail);
      CalmTends(s, s1);
      var job := s.jobs[j.value].(ignore := true, queued := false);
      CanceledTends(cfg, s, s1, j.value, job, SetJob(QueueDone(s1, j.value), j.value, job));
    }
  }

  lemma CanceledTends(cfg: Config, s: State, s1: State, j: Id, job: Job, t: State)
    requires Inv(cfg, s, BARE) && Attended(s) && s1 == s.(out := s1.out) && Extends(s, s1) && j in s.jobs
    requires forall cl :: cl in List(s.jobClients, j) ==> Closed(s1.out, cl)
    requires t.clients == s.clients && t.out == s1.out && t.nextClient == s.nextClient && t.jobs == s.jobs[j := job]
    ensures Tends(s, t, {})
  {
    hide Inv, Closed;
    forall cl | cl in t.clients && t.clients[cl].job in t.jobs && t.jobs[t.clients[cl].job].ignore
        ensures Closed(t.out, cl) {
      if t.clients[cl].job == j { Waits(cfg, s, cl); } else { ClosedLater(s.out, t.out, cl); }
    }
  }

  // Submitting

  lemma JobAddTends(cfg: Config, s: State, f: Name, u: string, data: string, p: Priority, when: int, origin: Origin)
    requires Inv(cfg, s, BARE) && Attended(s)
    ensures var (t, r) := JobAdd(cfg, s, f, u, data, p, when, origin);
            && Tends(s, t, {})
            && (r.Added? ==> r.job in t.jobs && !t.jobs[r.job].ignore)
            && (FindEqual(cfg, s, f, u, data).Some? ==> r.Exists?)
            && (r.Exists? ==>
                  && FindEqual(cfg, s, f, u, data) == Some(r.job)
                  && t.jobs == s.jobs && t.out == s.out && t.nextClient == s.nextClient)
  {
    hide Inv, EnsureFn, FindEqual, Limited, Create, FreeJob, Record, Enqueue, Attended, Tends, Kept, Closed, Extends;
    var s0 := EnsureFn(s, f);
    EnsureFnInv(cfg, s, BARE, f);
    SameEqual(cfg, s, s0, f, u, data);
    SameTends(s, s0);
    Parted(s, s0, {});
    if FindEqual(cfg, s0, f, u, data).None? && !Limited(s0.fns[f], p) {
      NewTends(cfg, s0, f, u, data, p, when, origin);
      TendsTwice(s, s0, JobAdd(cfg, s, f, u, data, p, when, origin).0);
    }
  }

  lemma SameTends(s: State, t: State)
    requires Attended(s) && t.clients == s.clients && t.out == s.out && t.nextClient == s.nextClient
    requires forall j :: j in t.jobs && t.jobs[j].ignore ==> j in s.jobs && s.jobs[j].ignore
    ensures Tends(s, t, {})
  {
    hide Closed;
    CalmTends(s, t);
  }

  lemma NewTends(cfg: Config, s: State, f: Name, u: string, data: string, p: Priority, when: int, origin: Origin)
    requires Inv(cfg, s, BARE) && Attended(s) && f in s.fns && FindEqual(cfg, s, f, u, data).None?
    ensures var j := s.nextJob;
            var s1 := Create(cfg, s, NewJob(cfg, j, f, u, data, p, when));
            var t := if origin == Background(false) then FreeJob(cfg, s1, j)
                else Enqueue(cfg, Record(s1, j, origin), j);
            Tends(s, t, {}) && (origin != Background(false) ==> j in t.jobs && !t.jobs[j].ignore)
  {
    hide Inv, FindEqual, Create, FreeJob, Record, Enqueue, Attended, Tends, Kept, Closed, Extends;
    var j, job := s.nextJob, NewJob(cfg, s.nextJob, f, u, data, p, when);
    var s1 := Create(cfg, s, job);
    NewJobInv(cfg, s, BARE, f, u, data, p, when);
    CreateCalm(cfg, s, job);
    SameTends(s, s1);
    Parted(s, s1, {});
    if origin == Background(false) {
      Newborn(cfg, s, job);
      FreeJobTends(cfg, s1, BARE.(floating := {j}), j);
      TendsTwice(s, s1, FreeJob(cfg, s1, j));
    } else {
      var s2 := Record(s1, j, origin);
      RecordCalm(s1, j, origin);
      EnqueueCalm(cfg, s2, j);
      SameTends(s1, s2);
      Parted(s1, s2, {});
      CalmTends(s2, Enqueue(cfg, s2, j));
      TendsTwice(s1, s2, Enqueue(cfg, s2, j));
      TendsTwice(s, s1, Enqueue(cfg, s2, j));
    }
  }

  lemma SameEqual(cfg: Config, s: State, t: State, f: Name, u: string, data: string)
    requires t == s.(fns := t.fns)
    ensures FindEqual(cfg, t, f, u, data) == FindEqual(cfg, s, f, u, data)
  {}

  lemma CreateCalm(cfg: Config, s: State, job: Job)
    requires job.spec.fn in s.fns
    ensures var t := Create(cfg, s, job);
            t.jobs == s.jobs[s.nextJob := job] && t.clients == s.clients && t.out == s.out
                && t.jobClients == s.jobClients
            && t.fns.Keys == s.fns.Keys && t.nextClient == s.nextClient
  {}

  lemma RecordCalm(s: State, j: Id, origin: Origin)
    ensures var t := Record(s, j, origin);
            && t.clients == s.clients && t.out == s.out && t.nextClient == s.nextClient && t.jobs.Keys == s.jobs.Keys
            && forall i :: i in t.jobs ==> t.jobs[i].ignore == s.jobs[i].ignore
  {
    hide Record;
    RecordIs(s, j, origin);
  }

  lemma RecordIs(s: State, j: Id, origin: Origin)
    ensures var t := Record(s, j, origin);
            t.jobs == if j !in s.jobs || origin.Foreground? then s.jobs else s.jobs[j := s.jobs[j].(queued := true)]
  {
    hide KeyOf;
    if j in s.jobs && !origin.Foreground? {
      var s1 := SetJob(s, j, s.jobs[j].(queued := true));
      if origin.Background? {
        assert Record(s, j, origin) == s1.(store := s1.store + {KeyOf(s1.jobs[j])});
      } else {
        assert Record(s, j, origin) == s1;
      }
    }
  }

  /** A new job has no clients yet. */
  lemma Newborn(cfg: Config, s: State, job: Job)
    requires Inv(cfg, s, BARE)
    ensures List(s.jobClients, s.nextJob) == []
  {
    hide CountsOk;
    var cls := List(s.jobClients, s.nextJob);
    JobClients(cfg, s, {}, s.nextJob);
    Nothing(cls);
  }

  /** What a step must not do: attach a client to an ignored job, or look for work where an ignored job is
      in the way of others. */
  ghost predicate Attentive(cfg: Config, s: State, e: Event) {
    match e
    case Submit(_, f, u, d, _, _, origin) =>
      var j := FindEqual(cfg, s, f, u, d);
          origin.Foreground? && |u| <= MAX_UNIQUE_SIZE && j.Some? && j.value in s.jobs ==> !s.jobs[j.value].ignore
    case PreSleep(c) => Undisturbed(cfg, s, c)
    case _ => true
  }

  lemma AddClientTends(cfg: Config, s: State, c: Id, j: Id)
    requires Inv(cfg, s, BARE) && Attended(s) && j in s.jobs && c in s.cons
    ensures Kept(s, AddClient(s, c, j), {})
    ensures !s.jobs[j].ignore || Closed(s.out, s.nextClient) <==> Attended(AddClient(s, c, j))
  {
    hide Inv, Closed;
    Unborn(cfg, s);
    var t := AddClient(s, c, j);
    var cl := s.nextClient;
    assert t.clients == s.clients[cl := Client(c, j)] && t.out == s.out && t.jobs == s.jobs;
  }

  lemma Unborn(cfg: Config, s: State)
    requires Inv(cfg, s, BARE)
    ensures s.nextClient !in s.clients
  {
    hide ListsOk, CountsOk;
    OldClients(s, {});
  }

  /** A submitted job is attended exactly when its client is not attached to an ignored one. */
  lemma SubmitTends(cfg: Config, s: State, e: Event)
    requires Inv(cfg, s, BARE) && Attended(s) && Enabled(cfg, s, e) && e.Submit?
    ensures Kept(s, Step(cfg, s, e), {})
    ensures Attentive(cfg, s, e) ==> Attended(Step(cfg, s, e))
    ensures !Attentive(cfg, s, e) && !Closed(s.out, s.nextClient) ==> !Attended(Step(cfg, s, e))
  {
    hide Inv, JobAdd, AddClient, Attended, Tends, Kept, Closed, Life, Accepts, FindEqual, TakeHangs, PeekHangs,
         Undisturbed;
    var Submit(c, f, u, d, p, when, origin) := e;
    var (s1, r) := JobAdd(cfg, s, f, u, d, p, when, origin);
    CalmTends(s, Emit(s, Error(c)));
    Parted(s, Emit(s, Error(c)), {});
    JobAddTends(cfg, s, f, u, d, p, when, origin);
    JobAddInv(cfg, s, BARE, f, u, d, p, when, origin);
    JobAddLife(cfg, s, f, u, d, p, when, origin);
    JobAddJob(cfg, s, f, u, d, p, when, origin);
    StillDead(s, s1, c);
    Parted(s, s1, {});
    var t := Step(cfg, s, e);
    var none: set<Id> := {};
    assert none + none == none;
    if |u| <= MAX_UNIQUE_SIZE && (r.Added? || r.Exists?) && origin.Foreground? {
      var s2 := AddClient(s1, c, r.job);
      AddClientTends(cfg, s1, c, r.job);
      KeptTwice(s, s1, s2, {}, {});
      EmitTends(s2, Created(c, r.job));
      KeptTwice(s, s2, t, {}, {});
    } else {
      EmitTends(s1, Error(c));
      if r.Added? || r.Exists? { EmitTends(s1, Created(c, r.job)); }
      if |u| <= MAX_UNIQUE_SIZE { KeptTwice(s, s1, t, {}, {}); }
    }
  }

  lemma EmitTends(s: State, o: Output)
    requires !o.Work?
    ensures Kept(s, Emit(s, o), {}) && (Attended(Emit(s, o)) <==> Attended(s))
  {
    hide Closed;
    forall cl: Id { ClosedEmit(s.out, o, cl); }
  }

  // Steps and runs

  lemma EpochCalm(cfg: Config, s: State, f: Name)
    ensures var t := EpochFire(cfg, s, f); t.jobs == s.jobs && t.clients == s.clients && Extends(s, t)
  {
    hide WakeLoop, Rearm, Life, Accepts;
    if f in s.fns { WakeGrows(SetFn(s, f, s.fns[f].(timer := None)), List(s.fnWorkers, f), cfg.workerWakeup, 0); }
  }

  lemma AddWorkerCalm(s: State, c: Id, f: Name, timeout: int)
    ensures var t := AddWorker(s, c, f, timeout);
              t.jobs == s.jobs && t.clients == s.clients && t.out == s.out && t.nextClient == s.nextClient
  {
    hide EnsureFn, NewWorker;
    NewWorkerCalm(EnsureFn(s, f), c, f, timeout);
  }

  lemma NewWorkerCalm(s: State, c: Id, f: Name, timeout: int)
    ensures var t := NewWorker(s, c, f, timeout);
              t.jobs == s.jobs && t.clients == s.clients && t.out == s.out && t.nextClient == s.nextClient
  {}

  lemma FlagsCalm(cfg: Config, s: State, e: Event)
    requires Enabled(cfg, s, e)
               && (e.Connect? || e.Disconnect? || e.Destroy? || e.Exceptions? || e.MaxQueue? || e.Tick?)
    ensures var t := Step(cfg, s, e); t == s.(cons := t.cons, fns := t.fns, clock := t.clock)
  {
    hide EpochFire, AddWorker, TakeHangs, PeekHangs, JobAdd, SubmitJob, GrabJob, Sleep, WorkResult, WorkUpdate,
         CancelJob, CleanUp, FreeWorkers, Registered, JobQueue, Truncate, CString, Life, Accepts;
  }

  lemma QuietCalm(cfg: Config, s: State, e: Event)
    requires Enabled(cfg, s, e)
    requires e.Connect? || e.Disconnect? || e.Destroy? || e.CanDo? || e.Exceptions? || e.MaxQueue? || e.EpochTimer?
               || e.Tick?
    ensures var t := Step(cfg, s, e); t.jobs == s.jobs && t.clients == s.clients && Extends(s, t)
  {
    hide EpochFire, AddWorker, TakeHangs, PeekHangs, Step;
    if e.EpochTimer? {
      EpochCalm(cfg, s, e.fn);
      EpochStep(cfg, s, e);
    } else if e.CanDo? {
      AddWorkerCalm(s, e.con, e.fn, e.timeout);
      CanDoStep(cfg, s, e);
    } else {
      FlagsCalm(cfg, s, e);
    }
  }

  lemma EpochStep(cfg: Config, s: State, e: Event)
    requires Enabled(cfg, s, e) && e.EpochTimer?
    ensures Step(cfg, s, e) == EpochFire(cfg, s, e.fn)
  {
    hide EpochFire;
  }

  lemma CanDoStep(cfg: Config, s: State, e: Event)
    requires Enabled(cfg, s, e) && e.CanDo?
    ensures Step(cfg, s, e) == AddWorker(s, e.con, e.fn, e.timeout)
  {
    hide AddWorker;
  }

  lemma QuietTends(cfg: Config, s: State, e: Event)
    requires Attended(s) && Enabled(cfg, s, e)
    requires e.Connect? || e.Disconnect? || e.Destroy? || e.CanDo? || e.Exceptions? || e.MaxQueue? || e.EpochTimer?
               || e.Tick?
    ensures Tends(s, Step(cfg, s, e), {})
  {
    hide Attended, Tends, Step, Enabled;
    QuietCalm(cfg, s, e);
    CalmTends(s, Step(cfg, s, e));
  }

  lemma TimeoutTends(cfg: Config, s: State, c: Id, j: Id)
    requires Inv(cfg, s, BARE) && Attended(s) && c in s.cons && Punctual(s, j)
    ensures Tends(s, JobQueue(cfg, SetCon(s, c, s.cons[c].(timer := None)), j), {})
  {
    hide Inv, Enqueue, Drop, Exhausted, Retried, Detach, Attended, Tends, Kept;
    var t := SetCon(s, c, s.cons[c].(timer := None));
    DeadFirst(cfg, s, BARE, c);
    CalmInv(cfg, s, BARE, c, s.cons[c].(timer := None));
    CalmTends(s, t);
    Parted(s, t, {});
    if j in s.jobs {
      JobQueueTends(cfg, t, BARE, j);
      TendsTwice(s, t, JobQueue(cfg, t, j));
    }
  }

  lemma ReleaseTends(cfg: Config, s: State, e: Event)
    requires Inv(cfg, s, BARE) && Attended(s) && Enabled(cfg, s, e) && (e.CantDo? || e.ResetAbilities?)
    ensures Tends(s, Step(cfg, s, e), {})
  {
    hide Inv, FreeWorkers, Registered, NoDup, Attended, Tends, TakeHangs, PeekHangs;
    ConWorkers(cfg, s, BARE, e.con);
    if e.CantDo? {
      RegisteredSpec(s, e.con, e.fn);
      FreeWorkersTends(cfg, s, Registered(s, e.con, e.fn));
    } else {
      FreeWorkersTends(cfg, s, List(s.conWorkers, e.con));
    }
  }

  /** The connections whose clients are forgotten. */
  function Gone(e: Event): set<Id> { if e.Cleanup? then {e.con} else {} }

  lemma StepTends(cfg: Config, s: State, e: Event)
    requires Inv(cfg, s, BARE) && Attended(s) && Enabled(cfg, s, e) && Allowed(cfg, s, BARE, e) && Attentive(cfg, s, e)
    ensures Tends(s, Step(cfg, s, e), Gone(e))
  {
    hide Inv, Attended, Tends, Kept, JobAdd, SubmitJob, GrabJob, Sleep, WorkResult, WorkUpdate, CancelJob, EpochFire,
         CleanUp, FreeWorkers, Registered, AddWorker, JobQueue,
         TakeHangs, PeekHangs, JobGet, Apart, Dozes, Punctual, Truncate, CString, Undisturbed, FindEqual;
    match e
    case Cleanup(c) => CleanUpTends(cfg, s, c);
    case Submit(c, f, u, d, p, when, origin) => SubmitTends(cfg, s, e); Looser(s, Step(cfg, s, e), {}, {});
    case Replay(f, u, d, p, when) => JobAddTends(cfg, s, f, u, d, p, when, Replayed);
    case Grab(c, ok) => GrabTends(cfg, s, c, ok);
    case PreSleep(c) => SleepTends(cfg, s, c);
    case Result(c, h, k, ok) => ResultTends(cfg, s, c, h, k, ok);
    case Update(c, h, k) => UpdateTends(cfg, s, c, h, k);
    case Cancel(h, ok) => CancelTends(cfg, s, h, ok);
    case JobTimeout(c) => TimeoutTends(cfg, s, c, s.cons[c].timer.value);
    case _ => if e.CantDo? || e.ResetAbilities? { ReleaseTends(cfg, s, e); } else { QuietTends(cfg, s, e); }
  }

  ghost predicate AllAttentive(cfg: Config, s: State, es: seq<Event>)
    requires Runs(cfg, s, es)
    decreases |es|
  {
    es == [] || (Attentive(cfg, s, es[0]) && AllAttentive(cfg, Step(cfg, s, es[0]), es[1..]))
  }

  function AllGone(es: seq<Event>): set<Id> { if es == [] then {} else Gone(es[0]) + AllGone(es[1..]) }

  lemma {:induction false} RunTends(cfg: Config, s: State, es: seq<Event>)
    requires Inv(cfg, s, BARE) && Attended(s) && Runs(cfg, s, es) && AllAllowed(cfg, s, BARE, es)
               && AllAttentive(cfg, s, es)
    ensures Tends(s, Run(cfg, s, es), AllGone(es)) && Inv(cfg, Run(cfg, s, es), BARE)
    decreases |es|
  {
    hide Inv, Step, Allowed, Enabled, Attentive, Attended, Tends, Kept, Gone;
    if es == [] {
      CalmTends(s, s);
    } else {
      var t, u := Step(cfg, s, es[0]), Run(cfg, s, es);
      StepInv(cfg, s, BARE, es[0]);
      StepTends(cfg, s, es[0]);
      Parted(s, t, Gone(es[0]));
      RunTends(cfg, t, es[1..]);
      Parted(t, u, AllGone(es[1..]));
      KeptTwice(s, t, u, Gone(es[0]), AllGone(es[1..]));
      Looser(s, u, AllGone(es), AllGone(es));
    }
  }

  /** In every run in which no client is attached to an ignored job and no `peek` has a job in its way: a
      client that waits after the events `es` still waits after the events `more`, or was told how its
      job ended, or its connection was cleaned up in between. */
  lemma NobodyForgotten(cfg: Config, store: set<Key>, now: int, es: seq<Event>, more: seq<Event>, cl: Id)
    requires cfg.jobRetries <= 255
    requires var s := Init(store, now); Runs(cfg, s, es) && AllAllowed(cfg, s, BARE, es) && AllAttentive(cfg, s, es)
    requires var s := Run(cfg, Init(store, now), es);
               Runs(cfg, s, more) && AllAllowed(cfg, s, BARE, more) && AllAttentive(cfg, s, more)
    ensures var s := Run(cfg, Init(store, now), es);
            var t := Run(cfg, s, more);
            cl in s.clients ==>
              (cl in t.clients && t.clients[cl] == s.clients[cl]) || Closed(t.out, cl)
                  || s.clients[cl].con in AllGone(more)
  {
    hide Inv, Runs, Run, AllAllowed, AllAttentive, Closed;
    var s := Init(store, now);
    InitInv(cfg, BARE, store, now);
    RunTends(cfg, s, es);
    RunTends(cfg, Run(cfg, s, es), more);
  }

  /** After such a run, a submission keeps the guarantee exactly when it attaches no client to an ignored
      job. */
  lemma SubmitAttends(cfg: Config, store: set<Key>, now: int, es: seq<Event>, e: Event)
    requires cfg.jobRetries <= 255
    requires var s := Init(store, now); Runs(cfg, s, es) && AllAllowed(cfg, s, BARE, es) && AllAttentive(cfg, s, es)
    requires e.Submit? && Enabled(cfg, Run(cfg, Init(store, now), es), e)
    ensures var s := Run(cfg, Init(store, now), es); Attended(Step(cfg, s, e)) <==> Attentive(cfg, s, e)
  {
    hide Inv, Runs, Run, AllAllowed, AllAttentive, Attentive, Attended, Enabled, Step;
    var s0 := Init(store, now);
    var s := Run(cfg, s0, es);
    InitInv(cfg, BARE, store, now);
    Fresh0(store, now);
    RunTends(cfg, s0, es);
    Parted(s0, s, AllGone(es));
    Unheard(s0, s);
    SubmitTends(cfg, s, e);
  }

  lemma Fresh0(store: set<Key>, now: int)
    ensures Attended(Init(store, now)) && Init(store, now).out == []
  {}

  /** Nobody was told anything under a number that was not given yet. */
  lemma Unheard(s: State, t: State)
    requires s.out == [] && Extends(s, t)
    ensures !Closed(t.out, t.nextClient)
  {}

  // What goes wrong otherwise

  lemma {:induction false} PeekThins(cfg: Config, s: State, c: Id)
    requires Inv(cfg, s, BARE)
    ensures var t := Peek(cfg, s, c).0; t.out == s.out && forall cl :: cl in t.clients ==> cl in s.clients
    decreases |s.jobs|
  {
    hide Inv, Look, Take, FreeJob, Fresh;
    var j := Look(s, List(s.conWorkers, c));
    if j.Some? && j.value in s.jobs && s.jobs[j.value].ignore {
      var job := s.jobs[j.value].(ignore := false);
      var s0 := SetJob(s, j.value, job);
      FlagInv(cfg, s, BARE, j.value, job);
      TakeInv(cfg, s0, BARE, c);
      TakeThins(cfg, s0, c);
      var (s1, t) := Take(cfg, s0, c);
      if t.Some? {
        FreshRuns(cfg, s1, c, t.value);
        Floating(cfg, s1, Taken(BARE, t), t.value);
        FreeJobThins(cfg, s1, Taken(BARE, t), t.value);
        FreeJobInv(cfg, s1, Taken(BARE, t), t.value);
        var s2 := FreeJob(cfg, s1, t.value);
        ForgetInv(cfg, s2, BARE, t.value);
        FreeJobKeys(cfg, s1, t.value);
        Shrinks(s, s2, t.value);
        PeekThins(cfg, s2, c);
      }
    }
  }

  /** A client attached to an ignored job that `take` comes upon is forgotten: its record goes, and it is
      told nothing. */
  lemma TakeForgets(cfg: Config, s: State, c: Id, j: Id, cl: Id)
    requires Inv(cfg, s, BARE) && Pick(cfg, s, c, PRIORITIES).1 == Some(j) && s.jobs[j].ignore
    requires cl in s.clients && s.clients[cl].job == j && !Closed(s.out, cl)
    ensures var t := Take(cfg, s, c).0; cl !in t.clients && !Closed(t.out, cl)
  {
    hide Inv, Pick, FreeJob, Fresh, Closed;
    var s1, x := Pick(cfg, s, c, PRIORITIES).0, Taken(BARE, Some(j));
    PickInv(cfg, s, BARE, c, PRIORITIES);
    PickThins(cfg, s, c);
    FreshRuns(cfg, s1, c, j);
    var s2 := Freed(cfg, s, s1, x, j, cl);
    FreeJobKeys(cfg, s1, j);
    Shrinks(s, s2, j);
    TakeThins(cfg, s2, c);
  }

  /** The record of a client goes with its job. */
  lemma Freed(cfg: Config, s: State, s1: State, x: Phase, j: Id, cl: Id) returns (s2: State)
    requires Inv(cfg, s1, x) && x == Taken(BARE, Some(j)) && j in s1.runs && j in s1.jobs
    requires cl in s.clients && s.clients[cl].job == j && (cl in s1.clients ==> s1.clients[cl] == s.clients[cl])
    ensures s1.jobs[j].spec.fn in s1.fns && s2 == FreeJob(cfg, s1, j)
    ensures cl !in s2.clients && s2.out == s1.out && Inv(cfg, s2, BARE)
  {
    hide Inv, FreeJob;
    Floating(cfg, s1, x, j);
    s2 := FreeJob(cfg, s1, j);
    FreeJobThins(cfg, s1, x, j);
    FreeJobInv(cfg, s1, x, j);
    ForgetInv(cfg, s2, BARE, j);
    FreeJobKeys(cfg, s1, j);
    if cl in s2.clients { Dangling(cfg, s2, cl); }
  }

  /** When the job that `peek` makes `take` remove is not the one it looked at, the clients of that job
      are forgotten: their records go, and they are told nothing. */
  lemma PeekForgets(cfg: Config, s: State, c: Id, j: Id, lost: Id, cl: Id)
    requires Inv(cfg, s, BARE) && Look(s, List(s.conWorkers, c)) == Some(j) && j in s.jobs && s.jobs[j].ignore
    requires Take(cfg, SetJob(s, j, s.jobs[j].(ignore := false)), c).1 == Some(lost)
    requires cl in s.clients && s.clients[cl].job == lost && !Closed(s.out, cl)
    ensures var t := Peek(cfg, s, c).0; cl !in t.clients && !Closed(t.out, cl)
  {
    hide Inv, Look, Take, FreeJob, Fresh, Closed;
    var job := s.jobs[j].(ignore := false);
    var s0 := SetJob(s, j, job);
    FlagInv(cfg, s, BARE, j, job);
    TakeInv(cfg, s0, BARE, c);
    TakeThins(cfg, s0, c);
    var s1, x := Take(cfg, s0, c).0, Taken(BARE, Some(lost));
    FreshRuns(cfg, s1, c, lost);
    var s2 := Freed(cfg, s, s1, x, lost, cl);
    FreeJobKeys(cfg, s1, lost);
    Shrinks(s, s2, lost);
    PeekThins(cfg, s2, c);
  }

  lemma Dangling(cfg: Config, s: State, cl: Id)
    requires Inv(cfg, s, BARE) && cl in s.clients
    ensures s.clients[cl].job in s.jobs
  {
    hide ListsOk, CountsOk;
  }
}
