/** What becomes of a running job when its worker is lost to it: it is queued again while it has retries left,
    and fails otherwise. */
module Requeues {
  import opened Seqs
  import opened Scheduler
  import opened Tables
  import opened Retries
  import opened Traces
  import opened Timers
  import opened Wakeups
  import opened Uniques
  import opened Invariant
  import opened Records
  import opened Notices
  import opened JobOps
  import opened Selection
  import opened Choices
  import opened Commands
  import opened Steps
  import opened Endings
  import opened Taking
  import opened Thinning

  /** The job may run again: there is no limit to its retries, or this one does not reach it. */
  predicate Spare(cfg: Config, job: Job) {
    cfg.jobRetries < 0 || (cfg.jobRetries > 0 && job.retries + 1 < cfg.jobRetries)
  }

  /** Nothing is left: no retries are allowed, or this one is the last. */
  predicate LastTry(cfg: Config, job: Job) { cfg.jobRetries == 0 || job.retries + 1 == cfg.jobRetries }

  lemma Tries(cfg: Config, s: State, x: Phase, j: Id)
    requires Inv(cfg, s, x) && x.spent == {} && j in s.jobs
    ensures Exhausted(cfg, Again(s.jobs[j]).retries) <==> !Spare(cfg, s.jobs[j])
    ensures Spare(cfg, s.jobs[j]) <==> !LastTry(cfg, s.jobs[j])
    ensures cfg.jobRetries >= 0 && Spare(cfg, s.jobs[j]) ==> Again(s.jobs[j]).retries == s.jobs[j].retries + 1
  {
    hide Inv, RetriesOk, Handouts;
    Parts(cfg, s, x);
    Bounded(cfg, s, j);
  }

  lemma Bounded(cfg: Config, s: State, j: Id)
    requires RetriesOk(cfg, s.jobs, s.runs, s.out, s.nextJob, {}) && j in s.jobs
    ensures cfg.jobRetries >= 0 ==> s.jobs[j].retries < Limit(cfg)
  {
    hide Handouts;
    assert RetryOk(cfg, s.jobs[j], j in s.runs, false, Handouts(s.out, j));
  }

  // One job

  /** Between the two, only NOOPs were sent. */
  ghost predicate OnlyNoops(s: State, t: State) {
    s.out <= t.out && forall i :: |s.out| <= i < |t.out| ==> t.out[i].Noop?
  }

  /** Job `j` went to the end of its FIFO, one retry older, and nobody was told anything about a job. */
  ghost predicate Requeued(s: State, t: State, j: Id) {
    && j in s.jobs && t.jobs == s.jobs[j := s.jobs[j].(retries := (s.jobs[j].retries + 1) % 256)]
    && t.runs == s.runs - {j} && t.fifo == s.fifo[HomeOf(s.jobs[j]) := List(s.fifo, HomeOf(s.jobs[j])) + [j]]
    && t.jobClients == s.jobClients && t.clients == s.clients && t.store == s.store && OnlyNoops(s, t)
  }

  /** Job `j` is gone, its clients, and they alone, were told that it failed, and the persistent queue has
      forgotten it. */
  ghost predicate Dropped(s: State, t: State, j: Id) {
    && j in s.jobs && t.jobs == s.jobs - {j} && t.runs == s.runs - {j} && t.fifo == s.fifo
    && (forall a :: a != j ==> List(t.jobClients, a) == List(s.jobClients, a) && SameClients(s, t, a))
    && Tells(s, t, |s.out|, List(s.jobClients, j), j, Fail)
    && t.store == StoreWithout(s, j)
  }

  /** The clients of job `j` are what they were. */
  ghost predicate SameClients(s: State, t: State, j: Id) {
    forall cl :: cl in s.clients && s.clients[cl].job == j ==> cl in t.clients && t.clients[cl] == s.clients[cl]
  }

  /** From position `n` on, after what was sent before, the packets in `t` are one of kind `kind` for each of
      the clients, in order. */
  ghost predicate Tells(s: State, t: State, n: nat, cls: seq<Id>, j: Id, kind: Kind) {
    && |s.out| <= n && |t.out| == n + |cls| && t.out[..|s.out|] == s.out
    && forall i :: 0 <= i < |cls| ==> t.out[n + i] == Work(cls[i], j, Heard(s, cls[i], kind))
  }

  /** The persistent queue without job `j`. */
  ghost function StoreWithout(s: State, j: Id): set<Key>
    requires j in s.jobs
  {
    var spec := s.jobs[j].spec;
    if s.jobs[j].queued then s.store - {(spec.unique, spec.uniqueLength, spec.fn)} else s.store
  }

  lemma {:induction false} WakeNoops(s: State, ws: seq<Id>, limit: nat, sent: nat)
    ensures OnlyNoops(s, WakeLoop(s, ws, limit, sent).0)
    decreases |ws|
  {
    hide Life, Accepts, Wakeable;
    if ws != [] {
      var t := WakeOne(s, ws[0]);
      assert OnlyNoops(s, t);
      hide WakeOne;
      WakeNoops(t, ws[1..], limit, if Wakeable(s, ws[0]) then sent + 1 else sent);
    }
  }

  lemma EnqueueIs(cfg: Config, s: State, j: Id)
    requires j in s.jobs && s.jobs[j].spec.fn in s.fns
    ensures var t := Enqueue(cfg, s, j);
            && t.jobs == s.jobs && t.runs == s.runs && OnlyNoops(s, t)
            && t.fifo == s.fifo[HomeOf(s.jobs[j]) := List(s.fifo, HomeOf(s.jobs[j])) + [j]]
            && t.jobClients == s.jobClients && t.clients == s.clients && t.store == s.store
  {
    hide WakeLoop, Life, Accepts, Schedule, Insert;
    WakeNoops(s, List(s.fnWorkers, s.jobs[j].spec.fn), cfg.workerWakeup, 0);
  }

  lemma DetachIs(s: State, j: Id)
    requires j in s.runs && j in s.jobs && s.jobs[j].spec.fn in s.fns
    ensures var t := Detach(s, j); t == s.(runs := s.runs - {j}, running := t.running, fns := t.fns)
  {
    hide Remove;
  }

  lemma RequeuesIt(cfg: Config, s: State, j: Id)
    requires j in s.runs && j in s.jobs && s.jobs[j].spec.fn in s.fns
    ensures Requeued(s, Enqueue(cfg, Detach(Retried(s, j), j), j), j)
  {
    hide Enqueue, Detach, OnlyNoops;
    var s1 := Retried(s, j);
    DetachIs(s1, j);
    EnqueueIs(cfg, Detach(s1, j), j);
    SameNoops(s, Detach(s1, j), Enqueue(cfg, Detach(s1, j), j));
  }

  lemma SameNoops(s: State, s1: State, t: State)
    requires s1.out == s.out && OnlyNoops(s1, t)
    ensures OnlyNoops(s, t)
  {}

  // Freeing a job

  lemma {:induction false} FreeClientsLists(cfg: Config, s: State, x: Phase, j: Id, a: Id)
    requires Inv(cfg, s, x) && j in s.jobs && a != j
    ensures List(FreeClients(s, List(s.jobClients, j)).jobClients, a) == List(s.jobClients, a)
    decreases |List(s.jobClients, j)|
  {
    var cls := List(s.jobClients, j);
    hide Inv, FreeClient;
    if cls != [] {
      HeadClient(cfg, s, x, j);
      FreeClientInv(cfg, s, x, cls[0]);
      FreeClientLists(s, cls[0], j, a);
      FreeClientsLists(cfg, FreeClient(s, cls[0]), x, j, a);
    }
  }

  lemma FreeClientLists(s: State, cl: Id, j: Id, a: Id)
    requires cl in s.clients && s.clients[cl].job == j && a != j
    ensures List(FreeClient(s, cl).jobClients, a) == List(s.jobClients, a)
  {
    hide DelClient, List;
    DelClientLists(s, cl, j, a);
    if j in s.jobs && DelClient(s, cl).jobClients[j] == [] {
      assert FreeClient(s, cl).jobClients == DelClient(s, cl).jobClients;
    }
  }

  lemma DelClientLists(s: State, cl: Id, j: Id, a: Id)
    requires cl in s.clients && s.clients[cl].job == j && a != j
    ensures j in DelClient(s, cl).jobClients && List(DelClient(s, cl).jobClients, a) == List(s.jobClients, a)
  {
    hide Remove;
  }

  lemma FreeJobLists(cfg: Config, s: State, x: Phase, j: Id, a: Id)
    requires Inv(cfg, s, x) && j in s.jobs && s.jobs[j].spec.fn in s.fns && a != j
    ensures List(FreeJob(cfg, s, j).jobClients, a) == List(s.jobClients, a)
  {
    hide Inv, Untimed, FreeClients, Detach, Remove;
    UntimedInv(cfg, s, x, j);
    FreeClientsLists(cfg, Untimed(s, j), x.(quiet := x.quiet + {j}), j, a);
  }

  lemma FreeJobSpares(cfg: Config, s: State, x: Phase, j: Id, a: Id)
    requires Inv(cfg, s, x) && a != j
    ensures SameClients(s, FreeJob(cfg, s, j), a)
  {
    hide Inv, FreeJob;
    ItsClients(cfg, s, x, j);
    forall cl: Id { FreeJobClients(cfg, s, j, cl); }
  }

  lemma ItsClients(cfg: Config, s: State, x: Phase, j: Id)
    requires Inv(cfg, s, x)
    ensures forall cl :: cl in List(s.jobClients, j) <==> cl in s.clients && s.clients[cl].job == j
  {
    hide ListsOk, RefsOk, CountsOk, KeysOk, Durable, RetriesOk, TraceOk, TimersOk, WatchOk;
    JobClients(cfg, s, x.floating, j);
  }

  lemma FreeJobKeepsStore(cfg: Config, s: State, j: Id)
    ensures FreeJob(cfg, s, j).store == s.store && FreeJob(cfg, s, j).out == s.out
  {
    hide Untimed, FreeClients, Detach, Unlink;
  }

  lemma DoneIs(s: State, j: Id)
    requires j in s.jobs
    ensures QueueDone(s, j) == s.(store := StoreWithout(s, j))
  {}

  lemma FanOutIs(s: State, cls: seq<Id>, j: Id, kind: Kind)
    ensures var t := FanOut(s, cls, j, kind); t == s.(out := t.out) && Tells(s, t, |s.out|, cls, j, kind)
  {
    hide FanOut, Accepts, Heard;
    if cls == [] {
      FanOutNone(s, j, kind);
    } else {
      FanOutTells(s, cls, j, kind, 0);
      forall i | 0 <= i < |cls|
        ensures FanOut(s, cls, j, kind).out[|s.out| + i] == Work(cls[i], j, Heard(s, cls[i], kind)) {
        FanOutTells(s, cls, j, kind, i);
      }
    }
  }

  lemma DropsIt(cfg: Config, s: State, x: Phase, j: Id)
    requires Inv(cfg, s, x) && !x.traced && x.spent <= {j} && j in s.runs && j in s.jobs && s.jobs[j].spec.fn in s.fns
    ensures Dropped(s, Drop(cfg, s, j), j)
  {
    hide Inv, FanOut, QueueDone, FreeJob, Tells, StoreWithout;
    var cls := List(s.jobClients, j);
    var s1 := FanOut(s, cls, j, Fail);
    FanOutIs(s, cls, j, Fail);
    UntracedInv(cfg, s, x, cls, j, Fail);
    QueueDoneInv(cfg, s1, x, j);
    DoneIs(s1, j);
    var s2 := QueueDone(s1, j);
    FreeJobOnly(cfg, s2, x.(spent := {j}), j);
    FreeJobKeepsStore(cfg, s2, j);
    forall a | a != j
      ensures List(Drop(cfg, s, j).jobClients, a) == List(s.jobClients, a) && SameClients(s, Drop(cfg, s, j), a) {
      FreeJobLists(cfg, s2, x.(spent := {j}), j, a);
      FreeJobSpares(cfg, s2, x.(spent := {j}), j, a);
    }
    SameStore(s, s1, j);
    SameTells(s, s1, Drop(cfg, s, j), cls, j);
  }

  lemma SameStore(s: State, t: State, j: Id)
    requires j in s.jobs && t == s.(out := t.out)
    ensures StoreWithout(t, j) == StoreWithout(s, j)
  {}

  lemma SameTells(s: State, s1: State, t: State, cls: seq<Id>, j: Id)
    requires t.out == s1.out && Tells(s, s1, |s.out|, cls, j, Fail)
    ensures Tells(s, t, |s.out|, cls, j, Fail)
  {
    hide Heard;
  }

  ghost predicate Settled(cfg: Config, s: State, t: State, j: Id) {
    j in s.jobs && if Spare(cfg, s.jobs[j]) then Requeued(s, t, j) else Dropped(s, t, j)
  }

  /** A running job that is queued again. */
  lemma QueuesAgain(cfg: Config, s: State, x: Phase, j: Id)
    requires Inv(cfg, s, x) && Steady(x) && !x.traced && j in s.runs
    ensures Settled(cfg, s, JobQueue(cfg, s, j), j)
    ensures Spare(cfg, s.jobs[j]) <==> !LastTry(cfg, s.jobs[j])
  {
    hide Inv, Enqueue, Detach, Drop, Exhausted, Again, Spare, LastTry, Requeued, Dropped;
    Floating(cfg, s, x, j);
    Tries(cfg, s, x, j);
    if Spare(cfg, s.jobs[j]) {
      RequeuesIt(cfg, s, j);
    } else {
      RetriedSpent(cfg, s, x, j);
      DropsIt(cfg, Retried(s, j), x.(spent := {j}), j);
      DroppedLater(s, Retried(s, j), Drop(cfg, Retried(s, j), j), j);
    }
  }

  lemma DroppedLater(s: State, s1: State, t: State, j: Id)
    requires j in s.jobs && s1 == s.(jobs := s1.jobs) && s1.jobs == s.jobs[j := Again(s.jobs[j])] && Dropped(s1, t, j)
    ensures Dropped(s, t, j)
  {
    hide Again;
    assert forall a :: SameClients(s1, t, a) ==> SameClients(s, t, a);
    var cls := List(s.jobClients, j);
    assert forall i :: 0 <= i < |cls| ==> Heard(s1, cls[i], Fail) == Heard(s, cls[i], Fail);
    hide Heard;
    assert s1.jobs - {j} == s.jobs - {j};
  }

  // Many jobs

  /** Nothing is sent about job `j` between the two. */
  ghost predicate Silent(s: State, t: State, j: Id) {
    s.out <= t.out && forall i :: |s.out| <= i < |t.out| ==> !(t.out[i].Work? && t.out[i].job == j)
  }

  /** What job `j` is, and who waits for it, does not change, and FIFOs only grow at their ends. */
  ghost predicate Aside(s: State, t: State, j: Id) {
    && (j in t.jobs <==> j in s.jobs) && (j in s.jobs ==> t.jobs[j] == s.jobs[j])
    && (j in t.runs <==> j in s.runs) && List(t.jobClients, j) == List(s.jobClients, j) && SameClients(s, t, j)
    && (forall k :: List(s.fifo, k) <= List(t.fifo, k)) && Silent(s, t, j)
  }

  /** Job `j` waits again, behind everything that waited before, and nothing was said about it. */
  ghost predicate WaitsAgain(s: State, t: State, j: Id) {
    && j in s.jobs && j in t.jobs && j !in t.runs && t.jobs[j].spec == s.jobs[j].spec
    && t.jobs[j].retries == (s.jobs[j].retries + 1) % 256 && Silent(s, t, j)
    && var k := HomeOf(s.jobs[j]);
       List(s.fifo, k) <= List(t.fifo, k) && j in List(t.fifo, k)[|List(s.fifo, k)|..]
  }

  /** Nothing of job `j` but its retries changed, nor who waits for it. */
  ghost predicate Intact(s: State, t: State, j: Id) {
    && j in s.jobs && j in t.jobs && t.jobs[j] == s.jobs[j].(retries := (s.jobs[j].retries + 1) % 256)
    && List(t.jobClients, j) == List(s.jobClients, j) && SameClients(s, t, j)
  }

  /** Job `j` is gone, and each of its clients was told that it failed. */
  ghost predicate Failed(s: State, t: State, j: Id) {
    && j in s.jobs && j !in t.jobs && s.out <= t.out
    && forall cl :: cl in List(s.jobClients, j) ==> ToldFail(s, t, cl, j)
  }

  ghost predicate ToldFail(s: State, t: State, cl: Id, j: Id) {
    exists i :: |s.out| <= i < |t.out| && t.out[i] == Work(cl, j, Fail)
  }

  /** A job with retries to spare waits again, any other has failed. */
  ghost predicate Fate(cfg: Config, s: State, t: State, j: Id) {
    j in s.jobs && if Spare(cfg, s.jobs[j]) then WaitsAgain(s, t, j) && Intact(s, t, j) else Failed(s, t, j)
  }

  lemma SettledFate(cfg: Config, s: State, t: State, j: Id)
    requires Settled(cfg, s, t, j)
    ensures Fate(cfg, s, t, j)
  {
    hide Spare;
    if Spare(cfg, s.jobs[j]) {
      RequeuedWaits(s, t, j);
    } else {
      DroppedFails(s, t, j);
    }
  }

  lemma RequeuedWaits(s: State, t: State, j: Id)
    requires Requeued(s, t, j)
    ensures WaitsAgain(s, t, j) && Intact(s, t, j)
  {
    var q := List(s.fifo, HomeOf(s.jobs[j]));
    assert (q + [j])[|q|..] == [j];
  }

  lemma DroppedFails(s: State, t: State, j: Id)
    requires Dropped(s, t, j)
    ensures Failed(s, t, j)
  {
    var cls := List(s.jobClients, j);
    forall cl | cl in cls ensures ToldFail(s, t, cl, j) {
      var i :| 0 <= i < |cls| && cls[i] == cl;
      assert t.out[|s.out| + i] == Work(cl, j, Fail);
    }
  }

  lemma SettledAside(cfg: Config, s: State, t: State, j: Id, a: Id)
    requires Settled(cfg, s, t, j) && a != j
    ensures Aside(s, t, a)
  {
    hide Spare;
    if Spare(cfg, s.jobs[j]) { RequeuedAside(s, t, j, a); } else { DroppedAside(s, t, j, a); }
  }

  lemma RequeuedAside(s: State, t: State, j: Id, a: Id)
    requires Requeued(s, t, j) && a != j
    ensures Aside(s, t, a)
  {}

  lemma DroppedAside(s: State, t: State, j: Id, a: Id)
    requires Dropped(s, t, j) && a != j
    ensures Aside(s, t, a)
  {
    hide Heard;
    var n, cls := |s.out|, List(s.jobClients, j);
    forall i | n <= i < |t.out| ensures !(t.out[i].Work? && t.out[i].job == a) {
      assert t.out[n + (i - n)] == Work(cls[i - n], j, Heard(s, cls[i - n], Fail));
    }
  }

  lemma AsideTwice(s: State, t: State, u: State, j: Id)
    requires Aside(s, t, j) && Aside(t, u, j)
    ensures Aside(s, u, j)
  {}

  lemma FateAfter(cfg: Config, s: State, t: State, u: State, j: Id)
    requires Aside(s, t, j) && Fate(cfg, t, u, j)
    ensures Fate(cfg, s, u, j)
  {
    hide Spare;
    if Spare(cfg, s.jobs[j]) {
      WaitsAfter(s, t, u, j);
    } else {
      FailedAfter(s, t, u, j);
    }
  }

  lemma WaitsAfter(s: State, t: State, u: State, j: Id)
    requires Aside(s, t, j) && WaitsAgain(t, u, j)
    ensures WaitsAgain(s, u, j)
  {
    var k := HomeOf(s.jobs[j]);
    var p, q, r := List(s.fifo, k), List(t.fifo, k), List(u.fifo, k);
    var i :| 0 <= i < |r[|q|..]| && r[|q|..][i] == j;
    assert r[|p|..][|q| - |p| + i] == j;
  }

  lemma FailedAfter(s: State, t: State, u: State, j: Id)
    requires Aside(s, t, j) && Failed(t, u, j)
    ensures Failed(s, u, j)
  {
    forall cl | cl in List(s.jobClients, j) ensures ToldFail(s, u, cl, j) { assert ToldFail(t, u, cl, j); }
  }

  lemma FateBefore(cfg: Config, s: State, t: State, u: State, j: Id)
    requires Fate(cfg, s, t, j) && Aside(t, u, j)
    ensures Fate(cfg, s, u, j)
  {
    hide Spare;
    if Spare(cfg, s.jobs[j]) {
      WaitsBefore(s, t, u, j);
    } else {
      forall cl | cl in List(s.jobClients, j) ensures ToldFail(s, u, cl, j) { ToldBefore(s, t, u, cl, j); }
    }
  }

  lemma WaitsBefore(s: State, t: State, u: State, j: Id)
    requires WaitsAgain(s, t, j) && Aside(t, u, j)
    ensures WaitsAgain(s, u, j)
  {
    var k := HomeOf(s.jobs[j]);
    var p, q, r := List(s.fifo, k), List(t.fifo, k), List(u.fifo, k);
    var i :| 0 <= i < |q[|p|..]| && q[|p|..][i] == j;
    assert r[|p|..][i] == j;
  }

  lemma ToldBefore(s: State, t: State, u: State, cl: Id, j: Id)
    requires ToldFail(s, t, cl, j) && t.out <= u.out
    ensures ToldFail(s, u, cl, j)
  {}

  /** The keys of those of `js` that are in the persistent queue and have no retries to spare. */
  ghost function LostKeys(cfg: Config, jobs: Jobs, js: set<Id>): set<Key> {
    set j | j in js && j in jobs && jobs[j].queued && !Spare(cfg, jobs[j]) ::
      (jobs[j].spec.unique, jobs[j].spec.uniqueLength, jobs[j].spec.fn)
  }

  /** Every job of `js` meets its fate, every other is left aside, and the persistent queue forgets just those
      that failed. */
  ghost predicate Handled(cfg: Config, s: State, t: State, js: set<Id>) {
    && t.store == s.store - LostKeys(cfg, s.jobs, js)
    && forall j :: if j in js then Fate(cfg, s, t, j) else Aside(s, t, j)
  }

  lemma SettledHandled(cfg: Config, s: State, t: State, j: Id)
    requires Settled(cfg, s, t, j)
    ensures Handled(cfg, s, t, {j})
  {
    hide Fate, Aside, Spare, Requeued, Dropped;
    SettledFate(cfg, s, t, j);
    forall a | a != j ensures Aside(s, t, a) { SettledAside(cfg, s, t, j, a); }
    SettledStore(cfg, s, t, j);
  }

  lemma SettledStore(cfg: Config, s: State, t: State, j: Id)
    requires Settled(cfg, s, t, j)
    ensures t.store == s.store - LostKeys(cfg, s.jobs, {j})
  {
    hide Spare, Tells, OnlyNoops;
    var spec := s.jobs[j].spec;
    assert LostKeys(cfg, s.jobs, {j}) ==
             if s.jobs[j].queued && !Spare(cfg, s.jobs[j]) then {(spec.unique, spec.uniqueLength, spec.fn)} else {};
  }

  lemma KeysTwice(cfg: Config, s: State, t: State, js: set<Id>, ks: set<Id>)
    requires js !! ks && forall j :: j in ks ==> Aside(s, t, j)
    ensures LostKeys(cfg, s.jobs, js + ks) == LostKeys(cfg, s.jobs, js) + LostKeys(cfg, t.jobs, ks)
  {
    hide Spare, Silent;
  }

  lemma HandledTwice(cfg: Config, s: State, t: State, u: State, js: set<Id>, ks: set<Id>)
    requires Handled(cfg, s, t, js) && Handled(cfg, t, u, ks) && js !! ks
    ensures Handled(cfg, s, u, js + ks)
  {
    hide Fate, Aside, LostKeys;
    KeysTwice(cfg, s, t, js, ks);
    forall j ensures if j in js + ks then Fate(cfg, s, u, j) else Aside(s, u, j) {
      if j in js {
        FateBefore(cfg, s, t, u, j);
      } else if j in ks {
        FateAfter(cfg, s, t, u, j);
      } else {
        AsideTwice(s, t, u, j);
      }
    }
  }

  lemma {:induction false} RequeueAllFates(cfg: Config, s: State, js: seq<Id>)
    requires Inv(cfg, s, BARE) && NoDup(js) && forall j :: j in js ==> j in s.runs
    ensures Handled(cfg, s, RequeueAll(cfg, s, js), Elems(js))
    decreases |js|
  {
    hide Inv, JobQueue, NoDup, Life, Accepts, Handled, Settled;
    if js != [] {
      HeadTail(js);
      var t := JobQueue(cfg, s, js[0]);
      Floating(cfg, s, BARE, js[0]);
      JobQueueInv(cfg, s, BARE, js[0]);
      JobQueueFrame(cfg, s, js[0]);
      QueuesAgain(cfg, s, BARE, js[0]);
      SettledHandled(cfg, s, t, js[0]);
      RequeueAllFates(cfg, t, js[1..]);
      HandledTwice(cfg, s, t, RequeueAll(cfg, s, js), {js[0]}, Elems(js[1..]));
      assert js == [js[0]] + js[1..];
      assert {js[0]} + Elems(js[1..]) == Elems(js);
    } else {
      NoneHandled(cfg, s, s);
    }
  }

  lemma NoneHandled(cfg: Config, s: State, t: State)
    requires t == s.(workers := t.workers, running := t.running, conWorkers := t.conWorkers, fnWorkers := t.fnWorkers)
    ensures Handled(cfg, s, t, {}) && Elems<Id>([]) == {}
  {
    hide Fate;
    assert LostKeys(cfg, s.jobs, {}) == {};
  }

  // Workers are freed

  ghost function RunBy(s: State, ws: seq<Id>): set<Id> { set j | j in s.runs && s.runs[j] in ws }

  lemma FreeWorkerFates(cfg: Config, s: State, w: Id)
    requires Inv(cfg, s, BARE) && w in s.workers
    ensures var t := FreeWorker(cfg, s, w); Handled(cfg, s, t, RunBy(s, [w])) && t.runs == s.runs - RunBy(s, [w])
  {
    hide Inv, RequeueAll, NoDup, Handled, Life, Accepts;
    var js := List(s.running, w);
    RunningList(cfg, s, BARE, w);
    RequeueAllFates(cfg, s, js);
    RequeueAllInv(cfg, s, BARE, js);
    var t := RequeueAll(cfg, s, js);
    assert Elems(js) == RunBy(s, [w]) == (set j | j in js);
    DelWorkerIs(t, w);
    NoneHandled(cfg, t, DelWorker(t, w));
    HandledTwice(cfg, s, t, DelWorker(t, w), Elems(js), {});
    assert Elems(js) + {} == Elems(js);
  }

  lemma DelWorkerIs(s: State, w: Id)
    ensures var t := DelWorker(s, w);
              t == s.(workers := t.workers, running := t.running, conWorkers := t.conWorkers, fnWorkers := t.fnWorkers)
  {
    hide Remove, List;
  }

  lemma {:induction false} FreeWorkersFates(cfg: Config, s: State, ws: seq<Id>)
    requires Inv(cfg, s, BARE) && NoDup(ws) && forall w :: w in ws ==> w in s.workers
    ensures Handled(cfg, s, FreeWorkers(cfg, s, ws), RunBy(s, ws))
    decreases |ws|
  {
    hide Inv, FreeWorker, NoDup, Handled, Life, Accepts;
    if ws == [] {
      NoneHandled(cfg, s, s);
      assert RunBy(s, ws) == {};
    } else {
      HeadTail(ws);
      var t := FreeWorker(cfg, s, ws[0]);
      FreeWorkerInv(cfg, s, BARE, ws[0]);
      FreeWorkerFates(cfg, s, ws[0]);
      FreeWorkersFates(cfg, t, ws[1..]);
      RunByRest(s, t, ws);
      HandledTwice(cfg, s, t, FreeWorkers(cfg, s, ws), RunBy(s, [ws[0]]), RunBy(t, ws[1..]));
    }
  }

  lemma RunByRest(s: State, t: State, ws: seq<Id>)
    requires ws != [] && ws[0] !in ws[1..] && t.runs == s.runs - RunBy(s, [ws[0]])
    ensures RunBy(s, [ws[0]]) !! RunBy(t, ws[1..]) && RunBy(s, ws) == RunBy(s, [ws[0]]) + RunBy(t, ws[1..])
  {
    assert ws == [ws[0]] + ws[1..];
  }

  /** The jobs that run for connection `c`, or only those for function `f`. */
  ghost function RunFor(s: State, c: Id, f: Option<Name>): set<Id> {
    set j | j in s.runs && RunsOn(s, j, c) && (f.None? || s.workers[s.runs[j]].fn == f.value)
  }

  /** CANT_DO and RESET_ABILITIES: the jobs that ran on the workers that go wait again or have failed, and no other
      job is touched. */
  lemma ReleaseFates(cfg: Config, s: State, x: Phase, e: Event)
    requires Inv(cfg, s, x) && Steady(x) && Enabled(cfg, s, e) && (e.CantDo? || e.ResetAbilities?)
    ensures Handled(cfg, s, Step(cfg, s, e), RunFor(s, e.con, if e.CantDo? then Some(e.fn) else None))
  {
    hide Inv, FreeWorkers, Registered, Handled, NoDup, TakeHangs, PeekHangs, Truncate, CString;
    WeakenInv(cfg, s, x, BARE);
    ConWorkers(cfg, s, x, e.con);
    match e
    case CantDo(c, f) =>
      RegisteredSpec(s, c, f);
      FreeWorkersFates(cfg, s, Registered(s, c, f));
      assert RunBy(s, Registered(s, c, f)) == RunFor(s, c, Some(f)) by { Running(cfg, s, x); }
    case ResetAbilities(c) =>
      FreeWorkersFates(cfg, s, List(s.conWorkers, c));
      assert RunBy(s, List(s.conWorkers, c)) == RunFor(s, c, None) by { Running(cfg, s, x); }
  }

  lemma Running(cfg: Config, s: State, x: Phase)
    requires Inv(cfg, s, x)
    ensures forall j :: j in s.runs ==> j in s.jobs && s.runs[j] in s.workers
  {
    hide Inv;
    forall j | j in s.runs ensures j in s.jobs && s.runs[j] in s.workers { Floating(cfg, s, x, j); }
  }

  // A connection is cleaned up

  lemma {:induction false} FreeClientsTries(s: State, cls: seq<Id>, j: Id)
    requires j in s.jobs
    ensures FreeClients(s, cls).jobs[j].retries == s.jobs[j].retries
    decreases |cls|
  {
    hide DelClient;
    if cls != [] {
      FreeClientTries(s, cls[0], j);
      hide FreeClient;
      FreeClientsTries(FreeClient(s, cls[0]), cls[1..], j);
    }
  }

  lemma FreeClientTries(s: State, cl: Id, j: Id)
    requires j in s.jobs
    ensures FreeClient(s, cl).jobs[j].retries == s.jobs[j].retries
  {
    hide Remove, List;
  }

  lemma StillFate(cfg: Config, s: State, t: State, u: State, j: Id)
    requires Fate(cfg, s, t, j) && u.fifo == t.fifo && u.runs == t.runs && u.out == t.out
    requires (j in u.jobs <==> j in t.jobs)
    requires j in t.jobs ==> u.jobs[j].spec == t.jobs[j].spec && u.jobs[j].retries == t.jobs[j].retries
    ensures if Spare(cfg, s.jobs[j]) then WaitsAgain(s, u, j) else Failed(s, u, j)
  {
    hide Spare;
    if !Spare(cfg, s.jobs[j]) {
      forall cl | cl in List(s.jobClients, j) ensures ToldFail(s, u, cl, j) { assert ToldFail(s, t, cl, j); }
    }
  }

  /** The workers of the connection are freed first. */
  lemma CleanUpFrees(cfg: Config, s: State, x: Phase, c: Id)
    requires Inv(cfg, s, x) && Steady(x)
    ensures Inv(cfg, s, BARE) && Inv(cfg, FreeWorkers(cfg, s, List(s.conWorkers, c)), BARE)
    ensures Handled(cfg, s, FreeWorkers(cfg, s, List(s.conWorkers, c)), RunFor(s, c, None))
  {
    hide Inv, FreeWorkers, Handled, NoDup, Life, Accepts;
    WeakenInv(cfg, s, x, BARE);
    ConWorkers(cfg, s, x, c);
    FreeWorkersFates(cfg, s, List(s.conWorkers, c));
    FreeWorkersInv(cfg, s, BARE, List(s.conWorkers, c));
    assert RunBy(s, List(s.conWorkers, c)) == RunFor(s, c, None) by { Running(cfg, s, x); }
  }

  /** The jobs that ran on a connection that is cleaned up wait again, or have failed. */
  lemma CleanUpFates(cfg: Config, s: State, x: Phase, c: Id, j: Id)
    requires Inv(cfg, s, x) && Steady(x) && Enabled(cfg, s, Cleanup(c)) && RunsOn(s, j, c)
    ensures j in s.jobs && var t := Step(cfg, s, Cleanup(c));
              if Spare(cfg, s.jobs[j]) then WaitsAgain(s, t, j) else Failed(s, t, j)
  {
    hide Inv, FreeWorkers, FreeClients, Fate, Aside, WaitsAgain, Failed, Spare, LostKeys;
    CleanUpFrees(cfg, s, x, c);
    var t, u := FreeWorkers(cfg, s, List(s.conWorkers, c)), CleanUp(cfg, s, c);
    assert j in RunFor(s, c, None);
    if j in t.jobs { FreeClientsTries(t, List(t.conClients, c), j); }
    Running(cfg, s, x);
    StillFate(cfg, s, t, u, j);
  }

  /** The persistent queue forgets just those of them that have failed. */
  lemma CleanUpStore(cfg: Config, s: State, x: Phase, c: Id)
    requires Inv(cfg, s, x) && Steady(x) && Enabled(cfg, s, Cleanup(c))
    ensures Step(cfg, s, Cleanup(c)).store == s.store - LostKeys(cfg, s.jobs, RunFor(s, c, None))
  {
    hide Inv, FreeWorkers, FreeClients, Fate, Aside, LostKeys;
    CleanUpFrees(cfg, s, x, c);
  }

  /** Only clients of connection `c` wait for job `j`. */
  ghost predicate OnlyFor(s: State, c: Id, j: Id) {
    && List(s.jobClients, j) != []
    && forall cl :: cl in List(s.jobClients, j) ==> cl in s.clients && s.clients[cl].con == c
  }

  /** Job `j` lost its last client between the two, and is not to run; or its flags are as they were. */
  ghost predicate Abandoned(s: State, t: State, j: Id) {
    && j in s.jobs && j in t.jobs
    && if List(s.jobClients, j) != [] && List(t.jobClients, j) == [] then t.jobs[j].ignore && !t.jobs[j].queued
       else t.jobs[j].ignore == s.jobs[j].ignore && t.jobs[j].queued == s.jobs[j].queued
  }

  lemma FreeClientAbandons(cfg: Config, s: State, x: Phase, cl: Id, j: Id)
    requires Inv(cfg, s, x) && cl in s.clients && j in s.jobs
    ensures Abandoned(s, FreeClient(s, cl), j) && FreeClient(s, cl).clients == s.clients - {cl}
  {
    hide Inv, DelClient;
    var i, t := s.clients[cl].job, DelClient(s, cl);
    ItsClients(cfg, s, x, i);
    Employed(cfg, s, x, cl);
    DelClientIs(s, cl);
    if i != j { DelClientLists(s, cl, i, j); }
    if t.jobClients[i] == [] {
      assert FreeClient(s, cl) == SetJob(t, i, s.jobs[i].(ignore := true, queued := false));
    } else {
      assert FreeClient(s, cl) == t;
    }
  }

  lemma Employed(cfg: Config, s: State, x: Phase, cl: Id)
    requires Inv(cfg, s, x) && cl in s.clients
    ensures s.clients[cl].job in s.jobs
  {
    hide ListsOk, CountsOk, KeysOk, Durable, RetriesOk, TraceOk, TimersOk, WatchOk, JobRefs, RunRefs,
         WorkerRefs, ConRefs;
  }

  lemma AbandonedTwice(s: State, t: State, u: State, j: Id)
    requires Abandoned(s, t, j) && Abandoned(t, u, j)
    requires List(s.jobClients, j) == [] ==> List(t.jobClients, j) == []
    requires List(t.jobClients, j) == [] ==> List(u.jobClients, j) == []
    ensures Abandoned(s, u, j)
  {}

  lemma {:induction false} FreeClientsAbandon(cfg: Config, s: State, x: Phase, cls: seq<Id>, j: Id)
    requires Inv(cfg, s, x) && NoDup(cls) && j in s.jobs && forall cl :: cl in cls ==> cl in s.clients
    ensures var t := FreeClients(s, cls);
            && Inv(cfg, t, x) && Abandoned(s, t, j) && t.clients == s.clients - Elems(cls)
    decreases |cls|
  {
    hide Inv, FreeClient, NoDup, Abandoned;
    if cls == [] {
      assert Abandoned(s, s, j) by { SameFlags(s, j); }
      assert s.clients - Elems(cls) == s.clients;
    } else {
      HeadTail(cls);
      var t, u := FreeClient(s, cls[0]), FreeClients(s, cls);
      FreeClientInv(cfg, s, x, cls[0]);
      FreeClientAbandons(cfg, s, x, cls[0], j);
      FreeClientsAbandon(cfg, t, x, cls[1..], j);
      NoneComes(cfg, s, t, x, j);
      NoneComes(cfg, t, u, x, j);
      AbandonedTwice(s, t, u, j);
      assert Elems(cls) == {cls[0]} + Elems(cls[1..]);
      assert s.clients - {cls[0]} - Elems(cls[1..]) == s.clients - Elems(cls);
    }
  }

  lemma SameFlags(s: State, j: Id)
    requires j in s.jobs
    ensures Abandoned(s, s, j)
  {}

  lemma NoneComes(cfg: Config, s: State, t: State, x: Phase, j: Id)
    requires Inv(cfg, s, x) && Inv(cfg, t, x)
    requires forall cl :: cl in t.clients ==> cl in s.clients && t.clients[cl] == s.clients[cl]
    ensures List(s.jobClients, j) == [] ==> List(t.jobClients, j) == []
  {
    hide Inv;
    ItsClients(cfg, s, x, j);
    ItsClients(cfg, t, x, j);
    var q := List(t.jobClients, j);
    assert q != [] ==> q[0] in q;
  }

  /** When a connection is cleaned up, a job lives on unless it ran there at its last try. It is not to run any
      more, and no longer marked as stored, exactly when only clients of that connection waited for it; otherwise
      it is what it was. */
  lemma CleanUpAbandons(cfg: Config, s: State, x: Phase, c: Id, j: Id)
    requires Inv(cfg, s, x) && Steady(x) && Enabled(cfg, s, Cleanup(c)) && j in s.jobs
    ensures var jobs := Step(cfg, s, Cleanup(c)).jobs;
            && (j in jobs <==> Spare(cfg, s.jobs[j]) || !RunsOn(s, j, c))
            && (j in jobs ==>
                  && jobs[j].spec == s.jobs[j].spec
                  && jobs[j].ignore == (s.jobs[j].ignore || OnlyFor(s, c, j))
                  && jobs[j].queued == (s.jobs[j].queued && !OnlyFor(s, c, j)))
  {
    hide Inv, FreeWorkers, FreeClients, Handled, Abandoned, OnlyFor, Spare, NoDup;
    CleanUpFrees(cfg, s, x, c);
    var s1 := FreeWorkers(cfg, s, List(s.conWorkers, c));
    var cls := List(s1.conClients, c);
    var t := FreeClients(s1, cls);
    assert Step(cfg, s, Cleanup(c)).jobs == t.jobs by { CleanUpJobs(cfg, s, c); }
    LivesOrNot(cfg, s, s1, RunFor(s, c, None), j);
    if j in s1.jobs {
      ConClients(cfg, s1, BARE, c);
      LivesOn(cfg, s, s1, RunFor(s, c, None), j);
      FreeClientsAbandon(cfg, s1, BARE, cls, j);
      LastOnes(cfg, s, s1, t, c, cls, j);
    }
  }

  lemma CleanUpJobs(cfg: Config, s: State, c: Id)
    requires Enabled(cfg, s, Cleanup(c))
    ensures var s1 := FreeWorkers(cfg, s, List(s.conWorkers, c));
              Step(cfg, s, Cleanup(c)).jobs == FreeClients(s1, List(s1.conClients, c)).jobs
  {
    hide FreeWorkers, FreeClients;
  }

  lemma LivesOrNot(cfg: Config, s: State, t: State, js: set<Id>, j: Id)
    requires Handled(cfg, s, t, js) && j in s.jobs
    ensures j in t.jobs <==> Spare(cfg, s.jobs[j]) || j !in js
  {
    hide Spare, Silent, SameClients, LostKeys;
    assert if j in js then Fate(cfg, s, t, j) else Aside(s, t, j);
  }

  lemma LivesOn(cfg: Config, s: State, t: State, js: set<Id>, j: Id)
    requires Handled(cfg, s, t, js) && j in t.jobs
    ensures j in s.jobs && t.jobs[j] == s.jobs[j].(retries := t.jobs[j].retries)
    ensures List(t.jobClients, j) == List(s.jobClients, j) && SameClients(s, t, j)
  {
    hide Spare, Silent, SameClients, WaitsAgain, LostKeys;
    assert if j in js then Fate(cfg, s, t, j) else Aside(s, t, j);
  }

  lemma LastOnes(cfg: Config, s: State, s1: State, t: State, c: Id, cls: seq<Id>, j: Id)
    requires Inv(cfg, s, BARE) && Inv(cfg, s1, BARE) && Inv(cfg, t, BARE) && j in s.jobs && j in s1.jobs
    requires s1.jobs[j] == s.jobs[j].(retries := s1.jobs[j].retries)
    requires List(s1.jobClients, j) == List(s.jobClients, j) && SameClients(s, s1, j)
    requires forall cl :: cl in cls <==> cl in s1.clients && s1.clients[cl].con == c
    requires Abandoned(s1, t, j) && t.clients == s1.clients - Elems(cls) && t.jobs[j].spec == s1.jobs[j].spec
    ensures var job := t.jobs[j];
            && job.spec == s.jobs[j].spec
            && job.ignore == (s.jobs[j].ignore || OnlyFor(s, c, j))
            && job.queued == (s.jobs[j].queued && !OnlyFor(s, c, j))
  {
    hide Inv;
    ItsClients(cfg, s, BARE, j);
    ItsClients(cfg, s1, BARE, j);
    ItsClients(cfg, t, BARE, j);
    var p, q := List(s.jobClients, j), List(t.jobClients, j);
    assert forall cl :: cl in q <==> cl in p && s.clients[cl].con != c;
    assert q != [] ==> q[0] in q;
    assert p != [] && q == [] <==> OnlyFor(s, c, j);
  }

  // A timeout

  /** A job timeout that comes while its job runs: the job goes to the end of its FIFO, or fails. */
  lemma TimeoutFate(cfg: Config, s: State, x: Phase, c: Id, j: Id)
    requires Inv(cfg, s, x) && Steady(x) && c in s.cons && s.cons[c].timer == Some(j) && j in s.runs
    requires Enabled(cfg, s, JobTimeout(c))
    ensures Settled(cfg, s, Step(cfg, s, JobTimeout(c)), j)
  {
    hide Inv, JobQueue, Settled, Step;
    var s1 := SetCon(s, c, s.cons[c].(timer := None));
    TimeoutIs(cfg, s, c);
    WeakenInv(cfg, s, x, BARE);
    TimerGone(cfg, s, c);
    QueuesAgain(cfg, s1, BARE, j);
    SettledSame(cfg, s, s1, JobQueue(cfg, s1, j), j);
  }

  lemma TimeoutIs(cfg: Config, s: State, c: Id)
    requires c in s.cons && s.cons[c].timer.Some? && Enabled(cfg, s, JobTimeout(c))
    ensures Step(cfg, s, JobTimeout(c)) ==
              JobQueue(cfg, SetCon(s, c, s.cons[c].(timer := None)), s.cons[c].timer.value)
  {
    hide JobQueue, TakeHangs, PeekHangs;
  }

  lemma TimerGone(cfg: Config, s: State, c: Id)
    requires Inv(cfg, s, BARE) && c in s.cons
    ensures Inv(cfg, SetCon(s, c, s.cons[c].(timer := None)), BARE)
  {
    hide Inv;
    DeadFirst(cfg, s, BARE, c);
    ConInv(cfg, s, BARE, {}, c, s.cons[c].(timer := None));
  }

  lemma SettledSame(cfg: Config, s: State, s1: State, t: State, j: Id)
    requires Settled(cfg, s1, t, j) && s1 == s.(cons := s1.cons)
    requires forall c :: (c in s.cons <==> c in s1.cons)
               && (c in s.cons ==> s1.cons[c].exceptions == s.cons[c].exceptions)
    ensures Settled(cfg, s, t, j)
  {
    hide Spare;
    assert forall cl :: Heard(s1, cl, Fail) == Heard(s, cl, Fail);
    assert forall a :: SameClients(s1, t, a) ==> SameClients(s, t, a);
    hide Heard, SameClients;
  }

  // An assignment that cannot be sent

  /** The search for a job touches neither the persistent queue nor who waits for jobs that are not ignored. */
  lemma {:induction false} TakeAside(cfg: Config, s: State, x: Phase, c: Id, a: Id)
    requires Inv(cfg, s, x) && x.floating == {} && x.spent == {} && a in s.jobs && !s.jobs[a].ignore
    ensures var t := Take(cfg, s, c).0;
            && t.store == s.store && t.out == s.out && List(t.jobClients, a) == List(s.jobClients, a)
            && a in t.jobs && t.jobs[a] == s.jobs[a]
    decreases |s.jobs|
  {
    hide Inv, Pick, FreeJob, Fresh;
    var (s1, j) := Pick(cfg, s, c, PRIORITIES);
    PickInv(cfg, s, x, c, PRIORITIES);
    PickStore(cfg, s, c, PRIORITIES);
    if j.Some? && s1.jobs[j.value].ignore {
      FreshRuns(cfg, s1, c, j.value);
      Floating(cfg, s1, Taken(x, j), j.value);
      FreeJobInv(cfg, s1, Taken(x, j), j.value);
      var s2 := FreeJob(cfg, s1, j.value);
      FreeJobKeys(cfg, s1, j.value);
      Shrinks(s, s2, j.value);
      FreeJobLists(cfg, s1, Taken(x, j), j.value, a);
      FreeJobKeepsStore(cfg, s1, j.value);
      FreeJobOnly(cfg, s1, Taken(x, j), j.value);
      TakeAside(cfg, s2, Taken(x, j), c, a);
    }
  }

  lemma {:induction false} PickStore(cfg: Config, s: State, c: Id, ps: seq<Priority>)
    ensures var t := Pick(cfg, s, c, ps).0; t.store == s.store && t.jobClients == s.jobClients
    decreases |ps|
  {
    hide Scan, FirstDue, Attach;
    if ps != [] {
      var s1 := Rotated(cfg, s, c, ps[0]);
      if Scan(cfg, s, List(s.conWorkers, c), ps[0]).1.None? {
        PickStore(cfg, s1, c, ps[1..]);
      } else {
        var w := Scan(cfg, s, List(s.conWorkers, c), ps[0]).1.value;
        ScanReal(cfg, s, List(s.conWorkers, c), ps[0]);
        var k := (s.workers[w].fn, ps[0]);
        AttachStore(s1, k, FirstDue(s.jobs, s.fifo[k], s.clock), w);
      }
    }
  }

  lemma ScanReal(cfg: Config, s: State, ws: seq<Id>, p: Priority)
    ensures var r := Scan(cfg, s, ws, p).1; r.Some? ==> r.value in s.workers && (s.workers[r.value].fn, p) in s.fifo
  {
    hide Skips, Waits;
    var i := FirstReady(s, ws, p);
    if i < |ws| { assert Classify(s, ws[i], p).Ready?; }
  }

  lemma AttachStore(s: State, k: Home, i: nat, w: Id)
    ensures Attach(s, k, i, w).store == s.store && Attach(s, k, i, w).jobClients == s.jobClients
  {
    hide RemoveAt, List;
  }

  /** Job `j` is the last of its FIFO, one retry older, and nothing was said about it. */
  ghost predicate Returns(s: State, t: State, j: Id) {
    && j in s.jobs && j in t.jobs && j !in t.runs && t.jobs[j].spec == s.jobs[j].spec
    && t.jobs[j].retries == (s.jobs[j].retries + 1) % 256 && Silent(s, t, j)
    && var q := List(t.fifo, HomeOf(s.jobs[j])); q != [] && q[|q| - 1] == j
  }

  /** GRAB_JOB whose answer cannot be sent: the best job, which would have been assigned, goes back to the end of its
      FIFO, or fails. */
  lemma AssignFate(cfg: Config, s: State, x: Phase, c: Id, a: Id)
    requires Inv(cfg, s, x) && Steady(x) && Enabled(cfg, s, Grab(c, false)) && Wanted(s, c, a)
    ensures exists j :: j in s.jobs && Best(s, c, j) && var t := Step(cfg, s, Grab(c, false));
              && (if Spare(cfg, s.jobs[j]) then Returns(s, t, j) else Failed(s, t, j))
              && t.store == s.store - LostKeys(cfg, s.jobs, {j})
  {
    hide Inv, Take, JobQueue, Eligible, Ahead, RunsOn, Spare, Settled, Returns, Failed, LostKeys, TakeHangs, PeekHangs;
    WeakenInv(cfg, s, x, BARE);
    var s0 := Awake(s, c);
    AwakeInv(cfg, s, BARE, c);
    TakeBest(cfg, s0, BARE, c);
    TakeInv(cfg, s0, BARE, c);
    SameBest(s, s0, c, a);
    var (s1, r) := Take(cfg, s0, c);
    var j := r.value;
    SameBest(s, s0, c, j);
    TakeAside(cfg, s0, BARE, c, j);
    FreshRuns(cfg, s1, c, j);
    ForgetInv(cfg, s1, BARE, j);
    QueuesAgain(cfg, s1, BARE, j);
    var t := JobQueue(cfg, s1, j);
    GoesBack(cfg, s, s1, t, j);
    assert t == Step(cfg, s, Grab(c, false));
  }

  lemma SameBest(s: State, t: State, c: Id, j: Id)
    requires t == s.(cons := t.cons)
    ensures Best(t, c, j) <==> Best(s, c, j)
    ensures Wanted(t, c, j) <==> Wanted(s, c, j)
    ensures Wanted(s, c, j) ==> j in s.jobs && !s.jobs[j].ignore
  {
    hide Before;
    assert forall a :: Wanted(t, c, a) <==> Wanted(s, c, a);
    assert forall a :: Ahead(t, a, j) <==> Ahead(s, a, j);
  }

  lemma GoesBack(cfg: Config, s: State, s1: State, t: State, j: Id)
    requires Settled(cfg, s1, t, j) && j in s.jobs && s1.jobs[j] == s.jobs[j]
    requires s1.out == s.out && s1.store == s.store && List(s1.jobClients, j) == List(s.jobClients, j)
    ensures if Spare(cfg, s.jobs[j]) then Returns(s, t, j) else Failed(s, t, j)
    ensures t.store == s.store - LostKeys(cfg, s.jobs, {j})
  {
    hide Spare;
    SettledStore(cfg, s1, t, j);
    assert LostKeys(cfg, s1.jobs, {j}) == LostKeys(cfg, s.jobs, {j});
    hide LostKeys;
    if !Spare(cfg, s.jobs[j]) {
      DroppedFails(s1, t, j);
      forall cl | cl in List(s.jobClients, j) ensures ToldFail(s, t, cl, j) { assert ToldFail(s1, t, cl, j); }
    }
  }
}
