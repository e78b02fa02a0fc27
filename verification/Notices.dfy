/** The invariant through NOOPs, WORK packets, the flags of connections and the persistent queue. */
module Notices {
  import opened Seqs
  import opened Ownership
  import opened Scheduler
  import opened Tables
  import opened Uniques
  import opened Retries
  import opened Traces
  import opened Timers
  import opened Wakeups
  import opened Invariant

  /** `y` promises no more than `x`. */
  ghost predicate Weaker(x: Phase, y: Phase) {
    && y.floating == x.floating && x.spent <= y.spent && y.quiet <= x.quiet
    && (y.traced ==> x.traced) && (y.timed ==> x.timed) && (y.watched ==> x.watched)
  }

  lemma WeakenInv(cfg: Config, s: State, x: Phase, y: Phase)
    requires Inv(cfg, s, x) && Weaker(x, y)
    ensures Inv(cfg, s, y)
  {
    hide ListsOk, RefsOk, CountsOk, KeysOk, WatchOk, Clean, Closed, Answered, Handouts, Named;
  }

  lemma SpendInv(cfg: Config, s: State, x: Phase, j: Id)
    requires Inv(cfg, s, x) && x.spent <= {j}
    ensures Inv(cfg, s, x.(spent := {j}))
  {
    hide Inv;
    WeakenInv(cfg, s, x, x.(spent := {j}));
  }

  lemma ForgetInv(cfg: Config, s: State, x: Phase, j: Id)
    requires Inv(cfg, s, x.(quiet := x.quiet + {j}))
    ensures Inv(cfg, s, x)
  {
    hide Inv;
    WeakenInv(cfg, s, x.(quiet := x.quiet + {j}), x);
  }

  // Outputs

  lemma EmitInv(cfg: Config, s: State, x: Phase, o: Output)
    requires Inv(cfg, s, x) && Plain(o)
    ensures Inv(cfg, Emit(s, o), x)
  {
    hide Owned, Owner, Waiting, HandleBuckets, UniqueBuckets, JobRefs, RunRefs, WorkerRefs, ClientRefs, ConRefs, Live,
         CountsOk, KeysOk, Durable, RetriesOk, TraceOk, TimersOk, WatchOk;
    EmitRetries(cfg, s, o, x.spent);
    if x.traced { PlainTrace(s.out, s.clients, s.jobs, s.nextClient, s.nextJob, x.spent, o); }
  }

  lemma {:induction false} FanOutHandouts(s: State, cls: seq<Id>, j: Id, kind: Kind, k: Id)
    ensures Handouts(FanOut(s, cls, j, kind).out, k) == Handouts(s.out, k)
    decreases |cls|
  {
    if cls != [] {
      var o := Packet(s, cls[0], j, kind);
      HandoutsEmit(s.out, o, k);
      FanOutHandouts(Emit(s, o), cls[1..], j, kind, k);
    }
  }

  lemma FanOutRetries(cfg: Config, s: State, spent: set<Id>, cls: seq<Id>, j: Id, kind: Kind)
    requires RetriesOk(cfg, s.jobs, s.runs, s.out, s.nextJob, spent)
    ensures RetriesOk(cfg, s.jobs, s.runs, FanOut(s, cls, j, kind).out, s.nextJob, spent)
  {
    forall k: Id { FanOutHandouts(s, cls, j, kind, k); }
    hide Handouts, FanOut;
  }

  /** The clients of a job are those on its list. */
  lemma JobClients(cfg: Config, s: State, floating: set<Id>, j: Id)
    requires ListsOk(cfg, s, floating)
    ensures NoDup(List(s.jobClients, j))
    ensures forall cl :: cl in List(s.jobClients, j) <==> cl in s.clients && s.clients[cl].job == j
  {
    var cls := List(s.jobClients, j);
    forall cl ensures cl in cls <==> cl in s.clients && s.clients[cl].job == j {
      if cl in s.clients { assert Owner(s.clients, ClientJob)[cl] == s.clients[cl].job; }
      if cl in cls { assert cl in Owner(s.clients, ClientJob); }
    }
  }

  lemma FanOutClosed(s: State, spent: set<Id>, cls: seq<Id>, j: Id, kind: Kind)
    requires TraceOk(s.out, s.clients, s.jobs, s.nextClient, s.nextJob, spent)
    requires NoDup(cls) && forall cl :: cl in cls <==> cl in s.clients && s.clients[cl].job == j
    requires forall cl :: cl in cls ==> cl < s.nextClient && !Closed(s.out, cl)
    ensures TraceOk(FanOut(s, cls, j, kind).out, s.clients, s.jobs, s.nextClient, s.nextJob,
              if Terminal(kind) then spent + {j} else spent)
  {
    hide Clean, Closed, Answered, FanOut;
    FanOutTrace(s, cls, j, kind);
  }

  lemma OldClients(s: State, floating: set<Id>)
    requires RefsOk(s, floating)
    ensures forall cl :: cl in s.clients ==> cl < s.nextClient
  {
    hide JobRefs, RunRefs, WorkerRefs, ConRefs;
  }

  lemma FanOutOk(cfg: Config, s: State, x: Phase, j: Id, kind: Kind)
    requires Inv(cfg, s, x) && x.traced
    requires forall cl :: cl in List(s.jobClients, j) ==> !Closed(s.out, cl)
    ensures TraceOk(FanOut(s, List(s.jobClients, j), j, kind).out, s.clients, s.jobs, s.nextClient, s.nextJob,
              if Terminal(kind) then x.spent + {j} else x.spent)
  {
    hide ListsOk, RefsOk, CountsOk, KeysOk, Durable, RetriesOk, TraceOk, TimersOk, WatchOk, FanOut, Closed, NoDup;
    JobClients(cfg, s, x.floating, j);
    OldClients(s, x.floating);
    FanOutClosed(s, x.spent, List(s.jobClients, j), j, kind);
  }

  /** Telling the clients of a job; a terminal packet can only be followed by freeing the job. */
  lemma FanOutInv(cfg: Config, s: State, x: Phase, j: Id, kind: Kind)
    requires Inv(cfg, s, x)
    requires x.traced ==> forall cl :: cl in List(s.jobClients, j) ==> !Closed(s.out, cl)
    ensures Inv(cfg, FanOut(s, List(s.jobClients, j), j, kind), if Terminal(kind) then x.(spent := x.spent + {j})
              else x)
  {
    hide ListsOk, RefsOk, CountsOk, KeysOk, Durable, RetriesOk, TraceOk, TimersOk, WatchOk, FanOut, Closed;
    var y := if Terminal(kind) then x.(spent := x.spent + {j}) else x;
    var cls := List(s.jobClients, j);
    if x.traced { FanOutOk(cfg, s, x, j, kind); }
    WeakenInv(cfg, s, x, y);
    FanOutRetries(cfg, s, y.spent, cls, j, kind);
    OutOnly(cfg, s, y, FanOut(s, cls, j, kind).out);
  }

  lemma OutOnly(cfg: Config, s: State, x: Phase, out: seq<Output>)
    requires Inv(cfg, s, x) && RetriesOk(cfg, s.jobs, s.runs, out, s.nextJob, x.spent)
    requires x.traced ==> TraceOk(out, s.clients, s.jobs, s.nextClient, s.nextJob, x.spent)
    ensures Inv(cfg, s.(out := out), x)
  {
    hide Owned, Owner, Waiting, HandleBuckets, UniqueBuckets, JobRefs, RunRefs, WorkerRefs, ClientRefs, ConRefs, Live,
         CountsOk, KeysOk, Durable, RetriesOk, TraceOk, TimersOk, WatchOk;
  }

  lemma OpenTrace(s: State, spent: set<Id>, j: Id, cls: seq<Id>)
    requires TraceOk(s.out, s.clients, s.jobs, s.nextClient, s.nextJob, spent) && j !in spent
    requires forall cl :: cl in cls ==> cl in s.clients && s.clients[cl].job == j
    ensures forall cl :: cl in cls ==> !Closed(s.out, cl)
  {
    hide Clean, Closed, Answered;
  }

  /** No client of a job that is not about to be freed has heard how it ended. */
  lemma Unclosed(cfg: Config, s: State, x: Phase, j: Id)
    requires Inv(cfg, s, x) && x.traced && j !in x.spent
    ensures forall cl :: cl in List(s.jobClients, j) ==> !Closed(s.out, cl)
  {
    hide RefsOk, CountsOk, KeysOk, Durable, RetriesOk, TraceOk, TimersOk, WatchOk, Closed;
    JobClients(cfg, s, x.floating, j);
    OpenTrace(s, x.spent, j, List(s.jobClients, j));
  }

  // Connections

  lemma LiveRefs(s: State, floating: set<Id>, c: Id, con: Con)
    requires RefsOk(s, floating) && (con.removed ==> con.dead)
    requires con.removed ==> c in s.cons && s.cons[c].removed
    ensures RefsOk(SetCon(s, c, con), floating)
  {
    hide JobRefs, RunRefs;
    assert forall d :: d in Live(s.cons) ==> d in Live(s.cons[c := con]);
    hide Live;
  }

  lemma ConInv(cfg: Config, s: State, x: Phase, quiet: set<Id>, c: Id, con: Con)
    requires Inv(cfg, s, x) && (con.removed ==> con.dead && c in s.cons && s.cons[c].removed)
    requires x.timed ==> TimersOk(s.cons[c := con], s.runs, s.workers, quiet)
    requires x.watched ==> WatchOk(s.fns, s.fifo, s.jobs, s.workers, s.cons[c := con], s.clock)
    ensures Inv(cfg, SetCon(s, c, con), x.(quiet := quiet))
  {
    hide Owned, Owner, Waiting, HandleBuckets, UniqueBuckets, RefsOk, CountsOk, KeysOk, Durable, RetriesOk, TraceOk,
         TimersOk, WatchOk;
    LiveRefs(s, x.floating, c, con);
  }

  /** A connection that is not put to sleep, and whose timeout is at most deleted. */
  lemma CalmInv(cfg: Config, s: State, x: Phase, c: Id, con: Con)
    requires Inv(cfg, s, x) && (con.removed ==> con.dead && c in s.cons && s.cons[c].removed)
    requires con.timer.Some? ==> c in s.cons && s.cons[c].timer == con.timer && (s.cons[c].dead ==> con.dead)
    requires con.sleeping && !con.noopSent ==> Dozes(s.cons, c)
    ensures Inv(cfg, SetCon(s, c, con), x)
  {
    hide ListsOk, RefsOk, CountsOk, KeysOk, Durable, RetriesOk, TraceOk, TimersOk, WatchOk;
    if x.timed { CalmTimers(s, x.quiet, c, con); }
    if x.watched { WatchLess(s, SetCon(s, c, con)); }
    ConInv(cfg, s, x, x.quiet, c, con);
  }

  lemma CalmTimers(s: State, quiet: set<Id>, c: Id, con: Con)
    requires TimersOk(s.cons, s.runs, s.workers, quiet)
    requires con.timer.Some? ==> c in s.cons && s.cons[c].timer == con.timer && (s.cons[c].dead ==> con.dead)
    ensures TimersOk(s.cons[c := con], s.runs, s.workers, quiet)
  {
    hide TargetOk;
  }

  lemma DeleteTimers(s: State, quiet: set<Id>, j: Id)
    requires TimersOk(s.cons, s.runs, s.workers, quiet) && j in s.runs && s.runs[j] in s.workers
    ensures TimersOk(DeleteTimer(s, s.workers[s.runs[j]].con).cons, s.runs, s.workers, quiet + {j})
  {}

  /** Before a running job is freed, the timeout about it is deleted. */
  lemma DeleteTimerInv(cfg: Config, s: State, x: Phase, j: Id)
    requires Inv(cfg, s, x) && j in s.runs && s.runs[j] in s.workers
    ensures Inv(cfg, DeleteTimer(s, s.workers[s.runs[j]].con), x.(quiet := x.quiet + {j}))
  {
    hide ListsOk, RefsOk, CountsOk, KeysOk, Durable, RetriesOk, TraceOk, TimersOk, WatchOk;
    var c := s.workers[s.runs[j]].con;
    RunningLive(s, x.floating, j);
    if x.timed { DeleteTimers(s, x.quiet, j); }
    if x.watched { WatchLess(s, DeleteTimer(s, c)); }
    ConInv(cfg, s, x, x.quiet + {j}, c, s.cons[c].(timer := None));
  }

  lemma RunningLive(s: State, floating: set<Id>, j: Id)
    requires RefsOk(s, floating) && j in s.runs && s.runs[j] in s.workers
    ensures s.workers[s.runs[j]].con in s.cons && !s.cons[s.workers[s.runs[j]].con].removed
  {
    hide JobRefs, ClientRefs, RunRefs;
  }

  /** A job that does not run has no timeout. */
  lemma QuietInv(cfg: Config, s: State, x: Phase, j: Id)
    requires Inv(cfg, s, x) && j !in s.runs
    ensures Inv(cfg, s, x.(quiet := x.quiet + {j}))
  {
    hide ListsOk, RefsOk, CountsOk, KeysOk, Durable, RetriesOk, TraceOk, WatchOk;
  }

  // Waking

  lemma SendNoopInv(cfg: Config, s: State, x: Phase, c: Id)
    requires Inv(cfg, s, x) && c in Live(s.cons)
    ensures Inv(cfg, SendNoop(s, c), x)
  {
    hide Inv;
    var con := s.cons[c].(noopSent := true);
    CalmInv(cfg, s, x, c, con);
    EmitInv(cfg, SetCon(s, c, con), x, Noop(c));
  }

  lemma WakeableLive(s: State, floating: set<Id>, w: Id)
    requires RefsOk(s, floating) && Wakeable(s, w)
    ensures s.workers[w].con in Live(s.cons)
  {
    hide JobRefs, ClientRefs, RunRefs, ConRefs, Live;
  }

  lemma WakeOneInv(cfg: Config, s: State, x: Phase, w: Id)
    requires Inv(cfg, s, x)
    ensures Inv(cfg, WakeOne(s, w), x)
  {
    hide ListsOk, RefsOk, CountsOk, KeysOk, Durable, RetriesOk, TraceOk, TimersOk, WatchOk, SendNoop;
    if Wakeable(s, w) {
      WakeableLive(s, x.floating, w);
      SendNoopInv(cfg, s, x, s.workers[w].con);
    }
  }

  lemma {:induction false} WakeLoopInv(cfg: Config, s: State, x: Phase, ws: seq<Id>, limit: nat, sent: nat)
    requires Inv(cfg, s, x)
    ensures Inv(cfg, WakeLoop(s, ws, limit, sent).0, x)
    decreases |ws|
  {
    hide Inv, WakeOne, Wakeable;
    if ws != [] {
      WakeOneInv(cfg, s, x, ws[0]);
      WakeLoopInv(cfg, WakeOne(s, ws[0]), x, ws[1..], limit, if Wakeable(s, ws[0]) then sent + 1 else sent);
    }
  }

  /** Waking puts nobody to sleep. */
  lemma {:induction false} WakeLoopWakes(s: State, ws: seq<Id>, limit: nat, sent: nat, c: Id)
    ensures Dozes(WakeLoop(s, ws, limit, sent).0.cons, c) ==> Dozes(s.cons, c)
    decreases |ws|
  {
    if ws != [] {
      assert Dozes(WakeOne(s, ws[0]).cons, c) ==> Dozes(s.cons, c);
      hide WakeOne, Dozes, Wakeable;
      WakeLoopWakes(WakeOne(s, ws[0]), ws[1..], limit, if Wakeable(s, ws[0]) then sent + 1 else sent, c);
    }
  }

  /** Without a limit, nobody on the list is left dozing. */
  lemma {:induction false} WakeLoopAll(s: State, ws: seq<Id>, sent: nat, i: nat)
    requires i < |ws| && ws[i] in s.workers
    ensures !Dozes(WakeLoop(s, ws, 0, sent).0.cons, s.workers[ws[i]].con)
    decreases |ws|
  {
    assert i == 0 ==> !Dozes(WakeOne(s, ws[0]).cons, s.workers[ws[0]].con);
    hide WakeOne, Dozes, Wakeable;
    var sent' := if Wakeable(s, ws[0]) then sent + 1 else sent;
    if i == 0 {
      WakeLoopWakes(WakeOne(s, ws[0]), ws[1..], 0, sent', s.workers[ws[0]].con);
    } else {
      WakeLoopAll(WakeOne(s, ws[0]), ws[1..], sent', i - 1);
    }
  }

  lemma Turned(q: seq<Id>, k: nat)
    requires NoDup(q) && k <= |q|
    ensures Reordered(q, q[k..] + q[..k])
  {
    var r := q[k..] + q[..k];
    assert q == q[..k] + q[k..];
    assert forall i :: 0 <= i < |r| ==> r[i] == if i < |q| - k then q[i + k] else q[i - (|q| - k)];
  }

  lemma TurnLists(cfg: Config, s: State, floating: set<Id>, f: Name, k: nat)
    requires ListsOk(cfg, s, floating) && k <= |List(s.fnWorkers, f)|
    ensures var ws := List(s.fnWorkers, f); ListsOk(cfg, s.(fnWorkers := s.fnWorkers[f := ws[k..] + ws[..k]]), floating)
  {
    Turned(List(s.fnWorkers, f), k);
    var r := List(s.fnWorkers, f)[k..] + List(s.fnWorkers, f)[..k];
    OwnedTurn(Owner(s.workers, FnOf), s.fnWorkers, f, r);
    hide Owned, Waiting, HandleBuckets, UniqueBuckets;
  }

  lemma TurnInv(cfg: Config, s: State, x: Phase, f: Name, k: nat)
    requires Inv(cfg, s, x) && k <= |List(s.fnWorkers, f)|
    ensures var ws := List(s.fnWorkers, f); Inv(cfg, s.(fnWorkers := s.fnWorkers[f := ws[k..] + ws[..k]]), x)
  {
    hide ListsOk, RefsOk, CountsOk, KeysOk, Durable, RetriesOk, TraceOk, TimersOk, WatchOk;
    TurnLists(cfg, s, x.floating, f, k);
    var ws := List(s.fnWorkers, f);
    TurnRefs(s, x.floating, s.fnWorkers[f := ws[k..] + ws[..k]]);
  }

  lemma TurnRefs(s: State, floating: set<Id>, lists: map<Name, seq<Id>>)
    requires RefsOk(s, floating)
    ensures RefsOk(s.(fnWorkers := lists), floating)
  {}

  lemma WakeInv(cfg: Config, s: State, x: Phase, f: Name)
    requires Inv(cfg, s, x)
    ensures Inv(cfg, Wake(s, f, cfg.workerWakeup), x)
  {
    hide Inv, WakeLoop;
    var ws := List(s.fnWorkers, f);
    WakeLoopInv(cfg, s, x, ws, cfg.workerWakeup, 0);
    var (t, k) := WakeLoop(s, ws, cfg.workerWakeup, 0);
    TurnInv(cfg, t, x, f, k);
  }

  lemma WakesAll(cfg: Config, s: State, floating: set<Id>, f: Name)
    requires ListsOk(cfg, s, floating)
    ensures var t := Wake(s, f, 0); !Dozing(t.workers, t.cons, f)
  {
    var ws := List(s.fnWorkers, f);
    forall w | w in s.workers && s.workers[w].fn == f ensures !Dozes(WakeLoop(s, ws, 0, 0).0.cons, s.workers[w].con) {
      assert Owner(s.workers, FnOf)[w] == f;
      assert w in ws;
      var i :| 0 <= i < |ws| && ws[i] == w;
      WakeLoopAll(s, ws, 0, i);
    }
    hide WakeLoop, Dozes;
  }

  // The persistent queue

  lemma StoreInv(cfg: Config, s: State, x: Phase, store: set<Key>)
    requires Inv(cfg, s, x) && Durable(s.jobs, store, x.spent)
    ensures Inv(cfg, s.(store := store), x)
  {
    hide Owned, Owner, Waiting, HandleBuckets, UniqueBuckets, JobRefs, RunRefs, WorkerRefs, ClientRefs, ConRefs, Live,
         CountsOk, KeysOk, Durable, RetriesOk, TraceOk, TimersOk, WatchOk;
  }

  lemma QueueDoneInv(cfg: Config, s: State, x: Phase, j: Id)
    requires Inv(cfg, s, x) && x.spent <= {j} && j in s.jobs
    ensures Inv(cfg, QueueDone(s, j), x.(spent := {j}))
  {
    hide ListsOk, RefsOk, CountsOk, KeysOk, Durable, RetriesOk, TraceOk, TimersOk, WatchOk;
    var y := x.(spent := {j});
    WeakenInv(cfg, s, x, y);
    DoneStore(cfg, s.jobs, s.store, j);
    StoreInv(cfg, s, y, s.store - {KeyOf(s.jobs[j])});
  }

  lemma DoneStore(cfg: Config, jobs: Jobs, store: set<Key>, j: Id)
    requires KeysOk(cfg, jobs) && Durable(jobs, store, {j}) && j in jobs
    ensures Durable(jobs, store - {KeyOf(jobs[j])}, {j})
  {
    hide KeyedOk, HandleOk;
    forall k | k in jobs && k != j && Named(jobs[k].spec) ensures KeyOf(jobs[k]) != KeyOf(jobs[j]) {
      assert !Equal(jobs[k].spec, jobs[j].spec);
    }
  }
}
