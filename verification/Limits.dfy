/** Where the guarantees end: for each condition of a guarantee, that it is needed. */
module Limits {
  import opened Seqs
  import opened Ownership
  import opened Scheduler
  import opened Tables
  import opened Uniques
  import opened Retries
  import opened Traces
  import opened Timers
  import opened Wakeups
  import opened Invariant
  import opened Notices
  import opened JobOps
  import opened Commands
  import opened Steps
  import opened Guarantees
  import opened Taking

  // A timeout about a job that waits in its FIFO

  ghost predicate InOnePlace(t: State, j: Id) {
    j in t.jobs ==>
      if j in t.runs then OnlyOn(t.running, t.runs[j], j) && Nowhere(t.fifo, j)
      else OnlyOn(t.fifo, HomeOf(t.jobs[j]), j) && Nowhere(t.running, j)
  }

  lemma InvPlaces(cfg: Config, t: State, x: Phase, j: Id)
    requires Inv(cfg, t, x) && Steady(x)
    ensures InOnePlace(t, j)
  {
    hide Owned, RefsOk, CountsOk, KeysOk, Durable, RetriesOk, TraceOk, TimersOk, WatchOk, OnlyOn, Nowhere,
         HandleBuckets, UniqueBuckets;
    OwnedOnly(Waiting(t.jobs, t.runs, {}), t.fifo, j);
    OwnedOnly(t.runs, t.running, j);
  }

  lemma Twice(q: seq<Id>, j: Id)
    requires j in q
    ensures multiset(q + [j])[j] >= 2
  {}

  lemma EnqueuedTwice(cfg: Config, s: State, x: Phase, j: Id)
    requires Inv(cfg, s, x) && Steady(x) && j in s.jobs && j !in s.runs
    ensures !InOnePlace(Enqueue(cfg, s, j), j)
  {
    hide Inv, Wake, Schedule, Insert, NoDup;
    Floating(cfg, s, x, j);
    Queued(cfg, s, x, j);
    var t, k := Enqueue(cfg, s, j), HomeOf(s.jobs[j]);
    Twice(List(s.fifo, k), j);
    assert List(t.fifo, k) == List(s.fifo, k) + [j];
    assert t.jobs == s.jobs && t.runs == s.runs;
    assert multiset(List(t.fifo, k))[j] != 1;
  }

  /** A job timeout leaves every job in one place exactly when the job it is about is not waiting in
      its FIFO. */
  lemma TimeoutPlaces(cfg: Config, s: State, x: Phase, c: Id)
    requires Inv(cfg, s, x) && Steady(x) && !x.timed && Enabled(cfg, s, JobTimeout(c))
    ensures var j := s.cons[c].timer.value;
            (forall i :: InOnePlace(Step(cfg, s, JobTimeout(c)), i)) <==> (j in s.jobs ==> j in s.runs)
  {
    hide Inv, InOnePlace, JobQueue;
    var j := s.cons[c].timer.value;
    var t := Step(cfg, s, JobTimeout(c));
    if j in s.jobs ==> j in s.runs {
      StepInv(cfg, s, x, JobTimeout(c));
      forall i: Id ensures InOnePlace(t, i) { InvPlaces(cfg, t, x, i); }
    } else {
      LateTimeout(cfg, s, x, c, j);
    }
  }

  lemma LateTimeout(cfg: Config, s: State, x: Phase, c: Id, j: Id)
    requires Inv(cfg, s, x) && Steady(x) && c in s.cons && j in s.jobs && j !in s.runs
    ensures !InOnePlace(JobQueue(cfg, SetCon(s, c, s.cons[c].(timer := None)), j), j)
  {
    hide Inv, InOnePlace, Enqueue;
    DeadFirst(cfg, s, x, c);
    CalmInv(cfg, s, x, c, s.cons[c].(timer := None));
    EnqueuedTwice(cfg, SetCon(s, c, s.cons[c].(timer := None)), x, j);
  }

  // A sleeping connection that registers a function

  ghost predicate AllArmed(s: State, f: Name) {
    forall p, j :: (f, p) in s.fifo && j in s.fifo[(f, p)] && f in s.fns && j in s.jobs ==>
        Armed(s.fns[f], s.jobs[j].spec.when)
  }

  lemma DozingAdds(s: State, c: Id, f: Name, timeout: int)
    requires Dozes(s.cons, c) && s.nextWorker !in s.workers
    ensures Dozing(s.workers[s.nextWorker := Worker(c, f, timeout)], s.cons, f)
    ensures forall g :: g != f ==>
              (Dozing(s.workers[s.nextWorker := Worker(c, f, timeout)], s.cons, g) <==> Dozing(s.workers, s.cons, g))
  {
    hide Dozes;
    var ws := s.workers[s.nextWorker := Worker(c, f, timeout)];
    assert s.nextWorker in ws;
    forall g | g != f ensures Dozing(ws, s.cons, g) <==> Dozing(s.workers, s.cons, g) {
      if Dozing(s.workers, s.cons, g) {
        var w :| w in s.workers && s.workers[w].fn == g && Dozes(s.cons, s.workers[w].con);
        assert w in ws && ws[w] == s.workers[w];
      }
    }
  }

  /** When a dozing connection registers a function that is known, nobody oversleeps exactly when
      each of the function's queued jobs has a timer that will wake somebody. */
  lemma CanDoWatch(s: State, c: Id, f: Name, timeout: int)
    requires WatchOk(s.fns, s.fifo, s.jobs, s.workers, s.cons, s.clock) && Dozes(s.cons, c) && f in s.fns
               && s.nextWorker !in s.workers
    ensures var t := AddWorker(s, c, f, timeout);
            WatchOk(t.fns, t.fifo, t.jobs, t.workers, t.cons, t.clock) <==> AllArmed(s, f)
  {
    hide Dozing, Sorted;
    DozingAdds(s, c, f, timeout);
    var t := AddWorker(s, c, f, timeout);
    if AllArmed(s, f) {
      forall k, j | k in t.fifo && j in t.fifo[k] && k.0 in t.fns && j in t.jobs
        ensures Heeded(t.fns[k.0], t.jobs[j].spec.when, t.clock, Dozing(t.workers, t.cons, k.0)) {
        assert Heeded(s.fns[k.0], s.jobs[j].spec.when, s.clock, Dozing(s.workers, s.cons, k.0));
        assert k == (k.0, k.1);
      }
    } else {
      var p, j :| (f, p) in s.fifo && j in s.fifo[(f, p)] && f in s.fns && j in s.jobs
          && !Armed(s.fns[f], s.jobs[j].spec.when);
      assert !Heeded(t.fns[(f, p).0], t.jobs[j].spec.when, t.clock, Dozing(t.workers, t.cons, (f, p).0));
    }
  }
}
