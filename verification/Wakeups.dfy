/** Who is woken for a queued job: a connection that sleeps, or the epoch timer. */
module Wakeups {
  import opened Scheduler
  import opened Tables

  ghost predicate Dozes(cons: map<Id, Con>, c: Id) {
    c in cons && cons[c].sleeping && !cons[c].noopSent
  }

  /** Some connection registered for `f` sleeps and was not sent a NOOP. */
  ghost predicate Dozing(workers: map<Id, Worker>, cons: map<Id, Con>, f: Name) {
    exists w :: w in workers && workers[w].fn == f && Dozes(cons, workers[w].con)
  }

  ghost predicate Sorted(q: seq<int>) { forall i, k :: 0 <= i < k < |q| ==> q[i] <= q[k] }

  ghost predicate Armed(fn: Func, when: int) { fn.timer.Some? && fn.timer.value <= when }

  ghost predicate Heeded(fn: Func, when: int, clock: int, dozing: bool) {
    && (Armed(fn, when) || ((when == 0 || when <= clock) && !dozing))
    && (when > clock ==> when in fn.pending)
  }

  ghost predicate WatchOk(fns: map<Name, Func>, fifo: map<Home, seq<Id>>, jobs: Jobs, workers: map<Id, Worker>,
      cons: map<Id, Con>, clock: int) {
    && clock >= 0
    && (forall f :: f in fns ==> Sorted(fns[f].pending))
    && (forall k, j :: k in fifo && j in fifo[k] && k.0 in fns && j in jobs ==>
          Heeded(fns[k.0], jobs[j].spec.when, clock, Dozing(workers, cons, k.0)))
  }

  lemma {:induction false} InsertSorted(q: seq<int>, when: int)
    requires Sorted(q)
    ensures Sorted(Insert(q, when)) && forall x :: x in Insert(q, when) <==> x in q || x == when
  {
    if q != [] && when >= q[0] {
      InsertSorted(q[1..], when);
      var r := Insert(q[1..], when);
      assert q == [q[0]] + q[1..];
      assert forall i :: 0 <= i < |r| ==> r[i] in r;
    } else {
      assert forall i :: 0 <= i < |q| ==> q[0] <= q[i];
    }
  }

  lemma {:induction false} PruneSorted(q: seq<int>, now: int)
    requires Sorted(q)
    ensures Sorted(Prune(q, now)) && forall x :: x in Prune(q, now) <==> x in q && x > now
  {
    if q != [] {
      assert q == [q[0]] + q[1..];
      if q[0] <= now {
        PruneSorted(q[1..], now);
      } else {
        assert forall i :: 0 <= i < |q| ==> q[0] <= q[i];
      }
    }
  }

  ghost predicate SameAlarm(a: Func, b: Func) { a.timer == b.timer && a.pending == b.pending }

  /** What makes no new job wait, wakes nobody's timer and puts nobody to sleep is harmless. */
  lemma WatchLess(s: State, t: State)
    requires WatchOk(s.fns, s.fifo, s.jobs, s.workers, s.cons, s.clock) && t.clock == s.clock
    requires forall f :: f in t.fns ==> f in s.fns && SameAlarm(t.fns[f], s.fns[f])
    requires forall k, j :: k in t.fifo && j in t.fifo[k] ==> k in s.fifo && j in s.fifo[k]
    requires forall k, j :: k in t.fifo && j in t.fifo[k] && j in t.jobs ==>
               j in s.jobs && t.jobs[j].spec == s.jobs[j].spec
    requires forall w :: w in t.workers ==> w in s.workers && t.workers[w] == s.workers[w]
    requires forall c :: Dozes(t.cons, c) ==> Dozes(s.cons, c)
    ensures WatchOk(t.fns, t.fifo, t.jobs, t.workers, t.cons, t.clock)
  {
    hide Dozes, Dozing;
    forall f: Name ensures Dozing(t.workers, t.cons, f) ==> Dozing(s.workers, s.cons, f) { DozingLess(s, t, f); }
  }

  lemma DozingLess(s: State, t: State, f: Name)
    requires forall w :: w in t.workers ==> w in s.workers && t.workers[w] == s.workers[w]
    requires forall c :: Dozes(t.cons, c) ==> Dozes(s.cons, c)
    ensures Dozing(t.workers, t.cons, f) ==> Dozing(s.workers, s.cons, f)
  {
    hide Dozes;
  }

  lemma AppendHeeded(s: State, j: Id, k: Home, i: Id)
    requires WatchOk(s.fns, s.fifo, s.jobs, s.workers, s.cons, s.clock)
    requires j in s.jobs && s.jobs[j].spec.fn in s.fns && !Dozing(s.workers, s.cons, s.jobs[j].spec.fn)
    requires var t := Append(s, j); k in t.fifo && i in t.fifo[k] && k.0 in t.fns && i in s.jobs
    ensures var t := Append(s, j);
            Heeded(t.fns[k.0], s.jobs[i].spec.when, s.clock, Dozing(s.workers, s.cons, k.0))
                && Sorted(t.fns[k.0].pending)
  {
    hide Dozing, Heeded, Sorted, Schedule, Insert, MoreAlarm;
    var t, f, when := Append(s, j), s.jobs[j].spec.fn, s.jobs[j].spec.when;
    AlarmAppend(s.fns[f], t.fns[f], when, s.clock);
    if i != j || k != HomeOf(s.jobs[j]) {
      assert k in s.fifo && i in s.fifo[k];
      if k.0 == f { HeededMore(s.fns[f], t.fns[f], s.jobs[i].spec.when, s.clock, Dozing(s.workers, s.cons, f)); }
    }
  }

  /** A job that goes to its FIFO while nobody dozes is heeded. */
  lemma AppendWatch(s: State, j: Id)
    requires WatchOk(s.fns, s.fifo, s.jobs, s.workers, s.cons, s.clock)
    requires j in s.jobs && s.jobs[j].spec.fn in s.fns && !Dozing(s.workers, s.cons, s.jobs[j].spec.fn)
    ensures var t := Append(s, j); WatchOk(t.fns, t.fifo, t.jobs, t.workers, t.cons, t.clock)
  {
    var t, f := Append(s, j), s.jobs[j].spec.fn;
    AlarmAppend(s.fns[f], t.fns[f], s.jobs[j].spec.when, s.clock);
    assert forall g :: g in t.fns ==> Sorted(t.fns[g].pending);
    forall k, i | k in t.fifo && i in t.fifo[k] && k.0 in t.fns && i in t.jobs
      ensures Heeded(t.fns[k.0], t.jobs[i].spec.when, t.clock, Dozing(t.workers, t.cons, k.0)) {
      AppendHeeded(s, j, k, i);
    }
    hide Append, Heeded, Dozing, Sorted;
  }

  ghost predicate MoreAlarm(a: Func, b: Func) {
    && (a.timer.Some? ==> b.timer.Some? && b.timer.value <= a.timer.value)
    && (forall x :: x in a.pending ==> x in b.pending)
  }

  lemma AlarmAppend(a: Func, b: Func, when: int, clock: int)
    requires Sorted(a.pending) && clock >= 0
    requires var fn := a.(jobCount := a.jobCount + 1);
             b == if when > 0 && when > clock then Schedule(fn.(pending := Insert(fn.pending, when)), when, clock)
                 else fn
    ensures MoreAlarm(a, b) && Sorted(b.pending) && Heeded(b, when, clock, false)
  {
    InsertSorted(a.pending, when);
  }

  lemma HeededMore(a: Func, b: Func, when: int, clock: int, dozing: bool)
    requires MoreAlarm(a, b) && Heeded(a, when, clock, dozing)
    ensures Heeded(b, when, clock, dozing)
  {}
}
