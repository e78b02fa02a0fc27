/** What CANT_DO and RESET_ABILITIES do to the timeout of their connection. */
module Stale {
  import opened Seqs
  import opened Scheduler
  import opened Tables
  import opened Uniques
  import opened Retries
  import opened Traces
  import opened Timers
  import opened Wakeups
  import opened Invariant
  import opened Notices
  import opened JobOps
  import opened Commands
  import opened Steps
  import opened Taking

  /** The pending timeout of each connection. */
  function Deadlines(cons: map<Id, Con>): map<Id, Option<Id>> { map c | c in cons :: cons[c].timer }

  lemma NoopDeadlines(s: State, w: Id)
    ensures Deadlines(WakeOne(s, w).cons) == Deadlines(s.cons)
  {}

  lemma {:induction false} WakeDeadlines(s: State, ws: seq<Id>, limit: nat, sent: nat)
    ensures Deadlines(WakeLoop(s, ws, limit, sent).0.cons) == Deadlines(s.cons)
    decreases |ws|
  {
    hide WakeOne, Wakeable, Deadlines;
    if ws != [] {
      NoopDeadlines(s, ws[0]);
      WakeDeadlines(WakeOne(s, ws[0]), ws[1..], limit, if Wakeable(s, ws[0]) then sent + 1 else sent);
    }
  }

  lemma EnqueueDeadlines(cfg: Config, s: State, j: Id)
    ensures var t := Enqueue(cfg, s, j); Deadlines(t.cons) == Deadlines(s.cons) && t.jobs == s.jobs
  {
    hide WakeLoop, Deadlines, Append;
    if j in s.jobs { WakeDeadlines(s, List(s.fnWorkers, s.jobs[j].spec.fn), cfg.workerWakeup, 0); }
  }

  lemma DropDeadlines(cfg: Config, s: State, x: Phase, j: Id, c: Id)
    requires Inv(cfg, s, x) && RunsOn(s, j, c) && c in s.cons
    ensures Deadlines(Drop(cfg, s, j).cons) == Deadlines(s.cons)[c := None]
  {
    hide Inv, FanOut, QueueDone, FreeClients, Detach, Unlink;
  }

  /** The job is at its last retry. */
  ghost predicate Last(cfg: Config, jobs: Jobs, j: Id) {
    j in jobs && Exhausted(cfg, Again(jobs[j]).retries)
  }

  lemma JobQueueDeadlines(cfg: Config, s: State, x: Phase, j: Id, c: Id)
    requires Inv(cfg, s, x) && Steady(x) && !x.timed && RunsOn(s, j, c) && c in s.cons
    ensures Deadlines(JobQueue(cfg, s, j).cons) == if Last(cfg, s.jobs, j) then Deadlines(s.cons)[c := None]
              else Deadlines(s.cons)
  {
    hide Inv, Drop, Enqueue, Detach, Again, Exhausted, Retried, Deadlines;
    Floating(cfg, s, x, j);
    RetriedSpent(cfg, s, x, j);
    if Exhausted(cfg, Again(s.jobs[j]).retries) {
      DropDeadlines(cfg, Retried(s, j), x.(spent := {j}), j, c);
    } else {
      EnqueueDeadlines(cfg, Detach(Retried(s, j), j), j);
    }
  }

  lemma RetriedOthers(s: State, j: Id, a: Id)
    requires j in s.jobs && a in s.jobs && a != j
    ensures a in Retried(s, j).jobs && Retried(s, j).jobs[a] == s.jobs[a]
  {}

  lemma DropOthers(cfg: Config, s: State, x: Phase, j: Id, a: Id)
    requires Inv(cfg, s, x) && j in s.runs && a in s.jobs && a != j && x.spent <= {j} && !x.traced
    ensures var t := Drop(cfg, s, j); a in t.jobs && t.jobs[a] == s.jobs[a]
  {
    hide Inv, FanOut, QueueDone, FreeJob;
    Floating(cfg, s, x, j);
    var s1 := FanOut(s, List(s.jobClients, j), j, Fail);
    UntracedInv(cfg, s, x, List(s.jobClients, j), j, Fail);
    QueueDoneInv(cfg, s1, x, j);
    FreeJobOnly(cfg, QueueDone(s1, j), x.(spent := {j}), j);
  }

  /** Queueing a job again changes no other. */
  lemma JobQueueOthers(cfg: Config, s: State, x: Phase, j: Id, a: Id)
    requires Inv(cfg, s, x) && Steady(x) && !x.timed && !x.traced && j in s.runs && a in s.jobs && a != j
    ensures var t := JobQueue(cfg, s, j); a in t.jobs && t.jobs[a] == s.jobs[a]
  {
    hide Inv, Drop, Enqueue, Detach, Again, Exhausted, Retried;
    Floating(cfg, s, x, j);
    RetriedSpent(cfg, s, x, j);
    RetriedOthers(s, j, a);
    DropOthers(cfg, Retried(s, j), x.(spent := {j}), j, a);
    EnqueueDeadlines(cfg, Detach(Retried(s, j), j), j);
  }

  ghost predicate AnyLast(cfg: Config, jobs: Jobs, js: seq<Id>) { exists j :: j in js && Last(cfg, jobs, j) }

  ghost function Cleared(deadlines: map<Id, Option<Id>>, c: Id, cleared: bool): map<Id, Option<Id>> {
    if cleared then deadlines[c := None] else deadlines
  }

  /** The jobs other than those of `js` are what they were. */
  ghost predicate Untouched(s: State, t: State, js: set<Id>) {
    forall a :: a in s.jobs && a !in js ==> a in t.jobs && t.jobs[a] == s.jobs[a]
  }

  lemma RequeueOne(cfg: Config, s: State, x: Phase, j: Id, c: Id)
    requires Inv(cfg, s, x) && Steady(x) && !x.timed && !x.traced && c in s.cons && RunsOn(s, j, c)
    ensures var t := JobQueue(cfg, s, j);
            && Inv(cfg, t, x) && t.runs == s.runs - {j} && t.workers == s.workers && Life(t.cons) == Life(s.cons)
            && Deadlines(t.cons) == Cleared(Deadlines(s.cons), c, Last(cfg, s.jobs, j)) && Untouched(s, t, {j})
    ensures j in s.jobs
  {
    hide Inv, JobQueue, Deadlines, Last, Life, Accepts;
    Floating(cfg, s, x, j);
    JobQueueInv(cfg, s, x, j);
    JobQueueFrame(cfg, s, j);
    JobQueueDeadlines(cfg, s, x, j, c);
    forall a | a in s.jobs && a != j ensures a in JobQueue(cfg, s, j).jobs && JobQueue(cfg, s, j).jobs[a] == s.jobs[a] {
      JobQueueOthers(cfg, s, x, j, a);
    }
  }

  lemma Known(cfg: Config, s: State, x: Phase, js: seq<Id>, c: Id)
    requires Inv(cfg, s, x) && forall j :: j in js ==> RunsOn(s, j, c)
    ensures forall j :: j in js ==> j in s.jobs
  {
    hide Inv;
    forall j | j in js ensures j in s.jobs { Floating(cfg, s, x, j); }
  }

  lemma {:induction false} RequeueAllDeadlines(cfg: Config, s: State, x: Phase, js: seq<Id>, c: Id)
    requires Inv(cfg, s, x) && Steady(x) && !x.timed && !x.traced && NoDup(js) && c in s.cons
    requires forall j :: j in js ==> RunsOn(s, j, c)
    ensures var t := RequeueAll(cfg, s, js);
            && Deadlines(t.cons) == Cleared(Deadlines(s.cons), c, AnyLast(cfg, s.jobs, js))
            && Untouched(s, t, Elems(js))
    decreases |js|
  {
    hide Inv, JobQueue, NoDup, Deadlines, Last, AnyLast, Untouched, Cleared, RunsOn, Life, Elems;
    if js == [] {
      NoneLast(cfg, s, c);
    } else {
      var j, t := js[0], JobQueue(cfg, s, js[0]);
      HeadTail(js);
      Known(cfg, s, x, js, c);
      RequeueOne(cfg, s, x, j, c);
      StillRuns(s, t, js, c);
      RequeueAllDeadlines(cfg, t, x, js[1..], c);
      LastTail(cfg, s, t, js);
      ClearedTwice(Deadlines(s.cons), c, Last(cfg, s.jobs, j), AnyLast(cfg, s.jobs, js[1..]));
      UntouchedBoth(s, t, RequeueAll(cfg, s, js), js);
    }
  }

  lemma NoneLast(cfg: Config, s: State, c: Id)
    ensures Deadlines(s.cons) == Cleared(Deadlines(s.cons), c, AnyLast(cfg, s.jobs, [])) && Untouched(s, s, Elems([]))
  {}

  lemma UntouchedBoth(s: State, t: State, u: State, js: seq<Id>)
    requires js != [] && Untouched(s, t, {js[0]}) && Untouched(t, u, Elems(js[1..]))
    ensures Untouched(s, u, Elems(js))
  {
    assert js == [js[0]] + js[1..];
    assert Elems(js) == {js[0]} + Elems(js[1..]);
  }

  lemma ClearedTwice(d: map<Id, Option<Id>>, c: Id, a: bool, b: bool)
    ensures Cleared(Cleared(d, c, a), c, b) == Cleared(d, c, a || b)
  {}

  lemma StillRuns(s: State, t: State, js: seq<Id>, c: Id)
    requires js != [] && js[0] !in js[1..] && t.runs == s.runs - {js[0]} && t.workers == s.workers
               && Life(t.cons) == Life(s.cons)
    requires c in s.cons && forall j :: j in js ==> RunsOn(s, j, c)
    ensures c in t.cons && forall j :: j in js[1..] ==> RunsOn(t, j, c)
  {
    StillDead(s, t, c);
    hide Life;
    assert forall j :: j in js[1..] ==> j in js;
  }

  lemma LastTail(cfg: Config, s: State, t: State, js: seq<Id>)
    requires js != [] && js[0] !in js[1..] && Untouched(s, t, {js[0]}) && forall j :: j in js ==> j in s.jobs
    ensures AnyLast(cfg, t.jobs, js[1..]) == AnyLast(cfg, s.jobs, js[1..])
    ensures AnyLast(cfg, s.jobs, js) == (Last(cfg, s.jobs, js[0]) || AnyLast(cfg, s.jobs, js[1..]))
  {
    assert js == [js[0]] + js[1..];
    forall j | j in js[1..] ensures Last(cfg, t.jobs, j) == Last(cfg, s.jobs, j) { assert j in js; }
    hide Last;
  }

  // Freeing the workers

  /** A job one of the workers runs is at its last retry. */
  ghost predicate LastOf(cfg: Config, s: State, ws: seq<Id>) {
    exists j :: j in s.runs && s.runs[j] in ws && Last(cfg, s.jobs, j)
  }

  lemma RunningOn(cfg: Config, s: State, x: Phase, c: Id, w: Id)
    requires Inv(cfg, s, x) && w in s.workers && s.workers[w].con == c
    ensures forall j :: j in List(s.running, w) ==> RunsOn(s, j, c)
    ensures NoDup(List(s.running, w)) && forall j :: j in List(s.running, w) <==> j in s.runs && s.runs[j] == w
  {
    hide Inv, NoDup;
    RunningList(cfg, s, x, w);
  }

  /** Of the jobs that run, those of worker `w` are gone and the others are as they were. */
  ghost predicate OthersRun(s: State, t: State, w: Id) {
    && t.runs.Keys <= s.runs.Keys
    && (forall j :: j in s.runs && s.runs[j] != w ==>
         j in t.runs && j in t.jobs && j in s.jobs && t.jobs[j] == s.jobs[j])
    && (forall j :: j in t.runs ==> s.runs[j] != w)
  }

  lemma FreeOne(cfg: Config, s: State, x: Phase, c: Id, w: Id)
    requires Inv(cfg, s, x) && Steady(x) && !x.timed && !x.traced && c in s.cons && w in s.workers
               && s.workers[w].con == c
    ensures var t := FreeWorker(cfg, s, w);
            && Inv(cfg, t, x) && FreedOf(s, t, w)
            && Deadlines(t.cons) == Cleared(Deadlines(s.cons), c, LastOf(cfg, s, [w]))
            && OthersRun(s, t, w)
  {
    hide Inv, RequeueAll, NoDup, Deadlines, Last, Cleared, Life, Accepts, RunsOn;
    var js := List(s.running, w);
    RunningOn(cfg, s, x, c, w);
    FreeWorkerInv(cfg, s, x, w);
    RequeueAllDeadlines(cfg, s, x, js, c);
    RequeueAllInv(cfg, s, x, js);
    assert AnyLast(cfg, s.jobs, js) == LastOf(cfg, s, [w]);
    forall j | j in s.runs ensures j in s.jobs { Floating(cfg, s, x, j); }
  }

  lemma {:induction false} FreeAll(cfg: Config, s: State, x: Phase, c: Id, ws: seq<Id>)
    requires Inv(cfg, s, x) && Steady(x) && !x.timed && !x.traced && NoDup(ws) && c in s.cons
    requires forall w :: w in ws ==> w in s.workers && s.workers[w].con == c
    ensures var t := FreeWorkers(cfg, s, ws);
            && Deadlines(t.cons) == Cleared(Deadlines(s.cons), c, LastOf(cfg, s, ws))
            && (forall j :: j in t.runs <==> j in s.runs && s.runs[j] !in ws)
                 && (forall j :: j in t.runs ==> t.runs[j] == s.runs[j])
    decreases |ws|
  {
    hide Inv, FreeWorker, NoDup, Deadlines, Last, Cleared, Life, Accepts;
    if ws == [] {
      Uncleared(cfg, s, c);
    } else {
      HeadTail(ws);
      FreeOne(cfg, s, x, c, ws[0]);
      var t := FreeWorker(cfg, s, ws[0]);
      StillDead(s, t, c);
      FreeAll(cfg, t, x, c, ws[1..]);
      LastRest(cfg, s, t, ws);
      ClearedTwice(Deadlines(s.cons), c, LastOf(cfg, s, [ws[0]]), LastOf(cfg, t, ws[1..]));
    }
  }

  lemma Uncleared(cfg: Config, s: State, c: Id)
    ensures Deadlines(s.cons) == Cleared(Deadlines(s.cons), c, LastOf(cfg, s, []))
  {}

  lemma LastRest(cfg: Config, s: State, t: State, ws: seq<Id>)
    requires ws != [] && FreedOf(s, t, ws[0])
    requires OthersRun(s, t, ws[0])
    ensures LastOf(cfg, s, ws) == (LastOf(cfg, s, [ws[0]]) || LastOf(cfg, t, ws[1..]))
  {
    hide Life, Accepts, Again, Exhausted;
    assert ws == [ws[0]] + ws[1..];
    if LastOf(cfg, s, ws) {
      var j :| j in s.runs && s.runs[j] in ws && Last(cfg, s.jobs, j);
      assert s.runs[j] != ws[0] ==> j in t.runs && t.runs[j] in ws[1..] && Last(cfg, t.jobs, j);
    }
    if LastOf(cfg, t, ws[1..]) {
      var j :| j in t.runs && t.runs[j] in ws[1..] && Last(cfg, t.jobs, j);
      assert j in s.runs && s.runs[j] in ws && Last(cfg, s.jobs, j);
    }
  }

  // The timeout

  lemma DeadlineOf(cons: map<Id, Con>, c: Id)
    requires c in cons
    ensures c in Deadlines(cons) && Deadlines(cons)[c] == cons[c].timer
  {}

  /** After some workers of a live connection are freed, its timeout is still about a job that runs
      there, or gone, exactly when it was not about a job of theirs, or when one of their jobs was at
      its last retry, which clears the timeout. */
  lemma StaleTimeout(cfg: Config, s: State, x: Phase, c: Id, ws: seq<Id>)
    requires Inv(cfg, s, x) && Steady(x) && !x.timed && !x.traced && NoDup(ws) && c in s.cons && !s.cons[c].dead
    requires TimersOk(s.cons, s.runs, s.workers, {}) && forall w :: w in ws ==> w in s.workers && s.workers[w].con == c
    ensures var t := FreeWorkers(cfg, s, ws);
            TimersOk(t.cons, t.runs, t.workers, {}) <==> Apart(s, c, ws) || LastOf(cfg, s, ws)
  {
    hide Inv, FreeWorkers, NoDup, Deadlines, LastOf, Life, Accepts;
    FreeWorkersInv(cfg, s, x, ws);
    FreeAll(cfg, s, x, c, ws);
    var t := FreeWorkers(cfg, s, ws);
    forall d | d in s.cons || d in t.cons
      ensures d in s.cons && d in t.cons && t.cons[d].dead == s.cons[d].dead
      ensures t.cons[d].timer == if d == c && LastOf(cfg, s, ws) then None else s.cons[d].timer {
      StillDead(s, t, d);
      DeadlineOf(s.cons, d);
      DeadlineOf(t.cons, d);
    }
    TimersAfter(s, t, c, ws, LastOf(cfg, s, ws));
  }

  lemma TimersAfter(s: State, t: State, c: Id, ws: seq<Id>, cleared: bool)
    requires c in s.cons && !s.cons[c].dead && TimersOk(s.cons, s.runs, s.workers, {})
    requires forall w :: w in ws ==> w in s.workers && s.workers[w].con == c
    requires t.cons.Keys == s.cons.Keys && t.workers == s.workers - (set w | w in ws)
    requires forall d :: d in s.cons ==>
               t.cons[d].dead == s.cons[d].dead && t.cons[d].timer == if d == c && cleared then None
                   else s.cons[d].timer
    requires forall j :: j in t.runs <==> j in s.runs && s.runs[j] !in ws
    requires forall j :: j in t.runs ==> t.runs[j] == s.runs[j]
    ensures TimersOk(t.cons, t.runs, t.workers, {}) <==> Apart(s, c, ws) || cleared
  {}

  // A timeout that fires

  /** Job `j` runs on another connection, which is not dead and has a timeout about it. */
  ghost predicate Rival(s: State, c: Id, j: Id) {
    && j in s.jobs && j in s.runs && s.runs[j] in s.workers
    && var d := s.workers[s.runs[j]].con;
       d != c && d in s.cons && !s.cons[d].dead && s.cons[d].timer == Some(j)
  }

  lemma SetDeadlines(cons: map<Id, Con>, c: Id, con: Con)
    ensures Deadlines(cons[c := con]) == Deadlines(cons)[c := con.timer]
              && (c in cons && con.dead == cons[c].dead && con.removed == cons[c].removed ==>
                   Life(cons[c := con]) == Life(cons))
  {}

  lemma Runner(cfg: Config, s: State, x: Phase, j: Id)
    requires Inv(cfg, s, x) && j in s.runs
    ensures j in s.jobs && s.runs[j] in s.workers && s.workers[s.runs[j]].con in s.cons
  {
    hide ListsOk, CountsOk, KeysOk, Durable, RetriesOk, TraceOk, TimersOk, WatchOk;
    JobFacts(s, x.floating, j);
    RunningLive(s, x.floating, j);
  }

  /** What a timeout that fires leaves of the timeouts and of what runs. */
  lemma Fired(cfg: Config, s: State, x: Phase, c: Id, j: Id)
    requires Inv(cfg, s, x) && Steady(x) && !x.timed && !x.traced && c in s.cons
    ensures var t := JobQueue(cfg, SetCon(s, c, s.cons[c].(timer := None)), j);
            && t.workers == s.workers && Life(t.cons) == Life(s.cons) && t.runs == s.runs - {j}
            && if j in s.runs && Last(cfg, s.jobs, j)
               then s.runs[j] in s.workers
                   && Deadlines(t.cons) == Deadlines(s.cons)[c := None][s.workers[s.runs[j]].con := None]
               else Deadlines(t.cons) == Deadlines(s.cons)[c := None]
  {
    hide Inv, Enqueue, Drop, Exhausted, Retried, Detach, Deadlines, Life, Accepts, Last;
    var s0 := SetCon(s, c, s.cons[c].(timer := None));
    SetDeadlines(s.cons, c, s.cons[c].(timer := None));
    DeadFirst(cfg, s, x, c);
    CalmInv(cfg, s, x, c, s.cons[c].(timer := None));
    Floating(cfg, s, x, j);
    if j in s.runs {
      Runner(cfg, s, x, j);
      RequeueOne(cfg, s0, x, j, s.workers[s.runs[j]].con);
    } else {
      assert s.runs - {j} == s.runs;
      if j in s.jobs {
        EnqueueDeadlines(cfg, s0, j);
        EnqueueFrame(cfg, s0, j);
      }
    }
  }

  /** A timeout that fires leaves every timeout of a live connection about a job that runs there, or gone,
      exactly when its job has no timeout on another live connection, or is at its last retry. */
  lemma FiredTimers(cfg: Config, s: State, x: Phase, c: Id)
    requires Inv(cfg, s, x) && Steady(x) && !x.timed && !x.traced && Enabled(cfg, s, JobTimeout(c))
    requires TimersOk(s.cons, s.runs, s.workers, {})
    ensures var t := Step(cfg, s, JobTimeout(c));
            TimersOk(t.cons, t.runs, t.workers, {}) <==>
                !Rival(s, c, s.cons[c].timer.value) || Last(cfg, s.jobs, s.cons[c].timer.value)
  {
    hide Inv, JobQueue, Deadlines, Life, Accepts, Last, TimersOk, Rival;
    var j, t := s.cons[c].timer.value, Step(cfg, s, JobTimeout(c));
    Fired(cfg, s, x, c, j);
    if j in s.runs { Runner(cfg, s, x, j); }
    forall d | d in s.cons || d in t.cons
      ensures d in s.cons && d in t.cons && t.cons[d].dead == s.cons[d].dead
      ensures t.cons[d].timer == if d == c || Clears(s, j, d, Last(cfg, s.jobs, j)) then None else s.cons[d].timer {
      StillDead(s, t, d);
      DeadlineOf(s.cons, d);
      DeadlineOf(t.cons, d);
    }
    FiredAfter(s, t, c, j, Last(cfg, s.jobs, j));
  }

  /** The job is freed, which clears the timeout of the connection that runs it. */
  ghost predicate Clears(s: State, j: Id, d: Id, last: bool) {
    last && j in s.runs && s.runs[j] in s.workers && s.workers[s.runs[j]].con == d
  }

  lemma FiredAfter(s: State, t: State, c: Id, j: Id, last: bool)
    requires c in s.cons && TimersOk(s.cons, s.runs, s.workers, {}) && (j in s.runs ==> j in s.jobs)
    requires t.cons.Keys == s.cons.Keys && t.workers == s.workers && t.runs == s.runs - {j}
    requires forall d :: d in s.cons ==> t.cons[d].dead == s.cons[d].dead
    requires forall d :: d in s.cons ==> t.cons[d].timer == if d == c || Clears(s, j, d, last) then None
               else s.cons[d].timer
    ensures TimersOk(t.cons, t.runs, t.workers, {}) <==> !Rival(s, c, j) || last
  {
    if Rival(s, c, j) && !last {
      var d := s.workers[s.runs[j]].con;
      assert !TargetOk(t.cons[d].timer.value, d, t.runs, t.workers, {});
    } else {
      forall d | d in t.cons && !t.cons[d].dead && t.cons[d].timer.Some?
        ensures TargetOk(t.cons[d].timer.value, d, t.runs, t.workers, {}) {
        assert TargetOk(s.cons[d].timer.value, d, s.runs, s.workers, {});
      }
    }
  }
}
