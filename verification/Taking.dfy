/** Which job `gearman_server_job_take` takes. */
module Taking {
  import opened Seqs
  import opened Scheduler
  import opened Tables
  import opened Uniques
  import opened Retries
  import opened Traces
  import opened Timers
  import opened Wakeups
  import opened Invariant
  import opened Records
  import opened Notices
  import opened JobOps
  import opened Selection
  import opened Choices
  import opened Steps

  /** Connection `c` registered function `f`. */
  ghost predicate Serves(s: State, c: Id, f: Name) {
    exists w :: w in s.workers && s.workers[w].con == c && s.workers[w].fn == f
  }

  /** Job `j` could be given to connection `c` now. */
  ghost predicate Eligible(s: State, c: Id, j: Id) {
    j in s.jobs && j !in s.runs && Due(s.jobs[j], s.clock) && Serves(s, c, s.jobs[j].spec.fn)
  }

  function Rank(p: Priority): nat {
    match p case High => 0 case Normal => 1 case Low => 2
  }

  ghost predicate Before(q: seq<Id>, a: Id, b: Id) {
    exists i, k :: 0 <= i < k < |q| && q[i] == a && q[k] == b
  }

  /** Job `a` goes before job `b`: by priority, and within the FIFO of a function by position. */
  ghost predicate Ahead(s: State, a: Id, b: Id) {
    && a in s.jobs && b in s.jobs
    && (|| Rank(s.jobs[a].spec.priority) < Rank(s.jobs[b].spec.priority)
        || (HomeOf(s.jobs[a]) == HomeOf(s.jobs[b]) && Before(List(s.fifo, HomeOf(s.jobs[b])), a, b)))
  }

  // One selection

  /** A worker has a due job at a priority exactly when the scan finds it ready. */
  lemma ReadyIff(cfg: Config, s: State, x: Phase, w: Id, p: Priority)
    requires Inv(cfg, s, x) && w in s.workers
    ensures var q := List(s.fifo, (s.workers[w].fn, p));
              Classify(s, w, p).Ready? <==> FirstDue(s.jobs, q, s.clock) < |q|
  {
    hide Inv, FirstDue;
    var k := (s.workers[w].fn, p);
    if List(s.fifo, k) != [] {
      FifoJob(cfg, s, x, k, 0);
      assert s.fifo[k][0] in s.fifo[k];
      Busy(cfg, s, x, k, s.fifo[k][0]);
    }
  }

  /** Where an eligible job is. */
  lemma EligibleAt(cfg: Config, s: State, x: Phase, c: Id, j: Id) returns (w: Id, i: nat)
    requires Inv(cfg, s, x) && Steady(x) && Eligible(s, c, j)
    ensures w in List(s.conWorkers, c) && w in s.workers && s.workers[w].fn == s.jobs[j].spec.fn
    ensures var q := List(s.fifo, HomeOf(s.jobs[j])); i < |q| && q[i] == j && FirstDue(s.jobs, q, s.clock) <= i
  {
    hide Inv, FirstDue, NoDup;
    w :| w in s.workers && s.workers[w].con == c && s.workers[w].fn == s.jobs[j].spec.fn;
    ConWorkers(cfg, s, x, c);
    var k := HomeOf(s.jobs[j]);
    Queued(cfg, s, x, j);
    i :| 0 <= i < |List(s.fifo, k)| && List(s.fifo, k)[i] == j;
  }

  lemma Queued(cfg: Config, s: State, x: Phase, j: Id)
    requires Inv(cfg, s, x) && Steady(x) && j in s.jobs && j !in s.runs
    ensures j in List(s.fifo, HomeOf(s.jobs[j])) && NoDup(List(s.fifo, HomeOf(s.jobs[j])))
  {
    hide RefsOk, CountsOk, KeysOk, Durable, RetriesOk, TraceOk, TimersOk, WatchOk;
    assert Waiting(s.jobs, s.runs, {})[j] == HomeOf(s.jobs[j]);
  }

  /** A scan that finds nobody leaves no eligible job at its priority. */
  lemma NoneReady(cfg: Config, s: State, x: Phase, c: Id, j: Id)
    requires Inv(cfg, s, x) && Steady(x) && Eligible(s, c, j)
    ensures Scan(cfg, s, List(s.conWorkers, c), s.jobs[j].spec.priority).1.Some?
  {
    hide Inv, FirstDue, Serves, Classify, Skips, Waits;
    var w, i := EligibleAt(cfg, s, x, c, j);
    ReadyIff(cfg, s, x, w, s.jobs[j].spec.priority);
    var ws := List(s.conWorkers, c);
    var n :| 0 <= n < |ws| && ws[n] == w;
  }

  lemma RotatedEligible(cfg: Config, s: State, c: Id, p: Priority, j: Id)
    ensures Eligible(Rotated(cfg, s, c, p), c, j) <==> Eligible(s, c, j)
  {
    hide Scan;
  }

  /** The first due job of FIFO `k` is job `j`, and it leaves the FIFO. */
  ghost predicate Leaves(s: State, t: State, k: Home, j: Id) {
    && k in s.fifo && FirstDue(s.jobs, s.fifo[k], s.clock) < |s.fifo[k]|
    && s.fifo[k][FirstDue(s.jobs, s.fifo[k], s.clock)] == j
    && t.fifo == s.fifo[k := RemoveAt(s.fifo[k], FirstDue(s.jobs, s.fifo[k], s.clock))]
  }

  /** What one selection does: an eligible job leaves its FIFO and runs on the connection; nothing
      else moves. */
  ghost predicate Selects(s: State, t: State, c: Id, j: Id) {
    && Eligible(s, c, j)
    && Leaves(s, t, HomeOf(s.jobs[j]), j)
    && j in t.runs && RunsOn(t, j, c) && t.runs == s.runs[j := t.runs[j]]
    && t.jobs == s.jobs && t.workers == s.workers && t.clock == s.clock && t.clients == s.clients
         && t.jobClients == s.jobClients
  }

  lemma AttachSelects(cfg: Config, s: State, x: Phase, c: Id, p: Priority)
    requires Inv(cfg, s, x) && Steady(x)
    requires Scan(cfg, s, List(s.conWorkers, c), p).1.Some?
    ensures var w := Scan(cfg, s, List(s.conWorkers, c), p).1.value; w in s.workers && var k := (s.workers[w].fn, p);
              k in s.fifo
    ensures var w := Scan(cfg, s, List(s.conWorkers, c), p).1.value;
            var k := (s.workers[w].fn, p);
            var i := FirstDue(s.jobs, s.fifo[k], s.clock);
            && i < |s.fifo[k]| && s.fifo[k][i] in s.jobs && s.jobs[s.fifo[k][i]].spec.priority == p
            && Selects(s, Attach(Rotated(cfg, s, c, p), k, i, w), c, s.fifo[k][i])
  {
    hide Inv, Scan, FirstDue;
    ScanFinds(cfg, s, x, c, p);
    var w := Scan(cfg, s, List(s.conWorkers, c), p).1.value;
    var k := (s.workers[w].fn, p);
    FifoJob(cfg, s, x, k, FirstDue(s.jobs, s.fifo[k], s.clock));
  }

  lemma {:induction false} PickSelects(cfg: Config, s: State, x: Phase, c: Id, ps: seq<Priority>)
    requires Inv(cfg, s, x) && Steady(x)
    ensures var (t, j) := Pick(cfg, s, c, ps);
            && (j.Some? ==> Selects(s, t, c, j.value) && s.jobs[j.value].spec.priority in ps)
            && (j.None? ==> t == s.(conWorkers := t.conWorkers))
    decreases |ps|
  {
    hide Inv, Scan, FirstDue, Attach, Eligible, RunsOn, RemoveAt;
    if ps != [] {
      var s1 := Rotated(cfg, s, c, ps[0]);
      if Scan(cfg, s, List(s.conWorkers, c), ps[0]).1.None? {
        RotatedInv(cfg, s, x, c, ps[0]);
        PickSelects(cfg, s1, x, c, ps[1..]);
        var j := Pick(cfg, s1, c, ps[1..]).1;
        if j.Some? { RotatedEligible(cfg, s, c, ps[0], j.value); }
      } else {
        AttachSelects(cfg, s, x, c, ps[0]);
      }
    }
  }

  ghost predicate Ascending(ps: seq<Priority>) { forall i, k :: 0 <= i < k < |ps| ==> Rank(ps[i]) < Rank(ps[k]) }

  /** No job of higher priority is passed over, and nothing is found only when there is nothing. */
  lemma {:induction false} PickHighest(cfg: Config, s: State, x: Phase, c: Id, ps: seq<Priority>, a: Id)
    requires Inv(cfg, s, x) && Steady(x) && Ascending(ps) && Eligible(s, c, a) && s.jobs[a].spec.priority in ps
    ensures var j := Pick(cfg, s, c, ps).1;
              j.Some? && Rank(s.jobs[j.value].spec.priority) <= Rank(s.jobs[a].spec.priority)
    decreases |ps|
  {
    hide Inv, Scan, FirstDue, Attach, Serves, Selects;
    if Scan(cfg, s, List(s.conWorkers, c), ps[0]).1.None? {
      NoneReady(cfg, s, x, c, a);
      var s1 := Rotated(cfg, s, c, ps[0]);
      RotatedInv(cfg, s, x, c, ps[0]);
      RotatedEligible(cfg, s, c, ps[0], a);
      assert ps == [ps[0]] + ps[1..];
      PickHighest(cfg, s1, x, c, ps[1..], a);
    } else {
      AttachSelects(cfg, s, x, c, ps[0]);
    }
  }

  lemma FirstFirst(cfg: Config, s: State, x: Phase, t: State, c: Id, j: Id, a: Id)
    requires Inv(cfg, s, x) && Steady(x) && Selects(s, t, c, j) && Eligible(s, c, a)
               && HomeOf(s.jobs[a]) == HomeOf(s.jobs[j])
    ensures !Before(List(s.fifo, HomeOf(s.jobs[j])), a, j)
  {
    hide Inv, Serves, FirstDue, RemoveAt;
    Queued(cfg, s, x, j);
  }

  /** One selection takes the job nothing eligible is ahead of. */
  lemma PickBest(cfg: Config, s: State, x: Phase, c: Id)
    requires Inv(cfg, s, x) && Steady(x)
    ensures var (t, j) := Pick(cfg, s, c, PRIORITIES);
            && (j.Some? ==> Selects(s, t, c, j.value))
            && (forall a :: Eligible(s, c, a) ==> j.Some? && !Ahead(s, a, j.value))
  {
    hide Inv, Pick, Eligible;
    PickSelects(cfg, s, x, c, PRIORITIES);
    var (t, j) := Pick(cfg, s, c, PRIORITIES);
    forall a | Eligible(s, c, a) ensures j.Some? && !Ahead(s, a, j.value) {
      BestOf(cfg, s, x, c, a);
    }
  }

  lemma BestOf(cfg: Config, s: State, x: Phase, c: Id, a: Id)
    requires Inv(cfg, s, x) && Steady(x) && Eligible(s, c, a)
    ensures var j := Pick(cfg, s, c, PRIORITIES).1; j.Some? && !Ahead(s, a, j.value)
  {
    hide Inv, Pick, Serves, Before, FirstDue;
    Ranked(s.jobs[a].spec.priority);
    assert Ascending(PRIORITIES);
    PickHighest(cfg, s, x, c, PRIORITIES, a);
    PickSelects(cfg, s, x, c, PRIORITIES);
    var (t, j) := Pick(cfg, s, c, PRIORITIES);
    if HomeOf(s.jobs[a]) == HomeOf(s.jobs[j.value]) { FirstFirst(cfg, s, x, t, c, j.value, a); }
  }

  // Discarding ignored jobs

  lemma {:induction false} FreeClientsJobs(cfg: Config, s: State, x: Phase, j: Id, a: Id)
    requires Inv(cfg, s, x) && j in s.jobs && a in s.jobs && a != j
    ensures FreeClients(s, List(s.jobClients, j)).jobs[a] == s.jobs[a]
    decreases |List(s.jobClients, j)|
  {
    var cls := List(s.jobClients, j);
    hide Inv, FreeClient;
    if cls != [] {
      HeadClient(cfg, s, x, j);
      FreeClientInv(cfg, s, x, cls[0]);
      OnlyItsJob(s, cls[0], j, a);
      FreeClientsJobs(cfg, FreeClient(s, cls[0]), x, j, a);
    }
  }

  lemma OnlyItsJob(s: State, cl: Id, j: Id, a: Id)
    requires cl in s.clients && s.clients[cl].job == j && j in s.jobs && a in s.jobs && a != j
    ensures FreeClient(s, cl).jobs[a] == s.jobs[a]
  {}

  /** Freeing a job touches no other. */
  lemma FreeJobOnly(cfg: Config, s: State, x: Phase, j: Id)
    requires Inv(cfg, s, x) && j in s.jobs && s.jobs[j].spec.fn in s.fns
    ensures var t := FreeJob(cfg, s, j);
            t.jobs == s.jobs - {j} && t.fifo == s.fifo && t.runs == s.runs - {j} && t.workers == s.workers
                && t.clock == s.clock
  {
    hide Inv, Untimed, FreeClients, Unlink, Detach;
    FreeJobFrame(cfg, s, j);
    UntimedInv(cfg, s, x, j);
    var s1 := Untimed(s, j);
    forall a | a in s.jobs && a != j ensures FreeClients(s1, List(s.jobClients, j)).jobs[a] == s.jobs[a] {
      FreeClientsJobs(cfg, s1, x.(quiet := x.quiet + {j}), j, a);
    }
  }

  /** An ignored job that is selected disappears; everything else stays in place. */
  ghost predicate Discards(s: State, t: State, j: Id) {
    && j in s.jobs && j !in s.runs && t.jobs == s.jobs - {j} && t.runs == s.runs && t.workers == s.workers
         && t.clock == s.clock
    && Leaves(s, t, HomeOf(s.jobs[j]), j)
  }

  lemma SelectDiscards(cfg: Config, s: State, x: Phase, t: State, c: Id, j: Id)
    requires Selects(s, t, c, j) && Inv(cfg, t, x) && t.jobs[j].spec.fn in t.fns
    ensures Discards(s, FreeJob(cfg, t, j), j)
  {
    hide Inv, FreeJob, Serves, RunsOn, FirstDue, RemoveAt;
    FreeJobOnly(cfg, t, x, j);
    assert s.runs[j := t.runs[j]] - {j} == s.runs;
  }

  lemma DiscardEligible(s: State, t: State, c: Id, j: Id, a: Id)
    requires Discards(s, t, j)
    ensures Eligible(t, c, a) <==> Eligible(s, c, a) && a != j
    ensures a in t.jobs ==> a in s.jobs && t.jobs[a] == s.jobs[a]
  {
    hide Leaves;
    assert forall f :: Serves(t, c, f) <==> Serves(s, c, f);
    hide Serves;
  }

  lemma RemoveBefore(q: seq<Id>, n: nat, a: Id, b: Id)
    requires n < |q| && Before(RemoveAt(q, n), a, b)
    ensures Before(q, a, b)
  {
    var r := RemoveAt(q, n);
    var i, k :| 0 <= i < k < |r| && r[i] == a && r[k] == b;
    var i', k' := if i < n then i else i + 1, if k < n then k else k + 1;
    assert q[i'] == a && q[k'] == b;
  }

  lemma KeepBefore(q: seq<Id>, n: nat, a: Id, b: Id)
    requires n < |q| && Before(q, a, b) && a != q[n] && b != q[n]
    ensures Before(RemoveAt(q, n), a, b)
  {
    var i, k :| 0 <= i < k < |q| && q[i] == a && q[k] == b;
    var i', k' := if i < n then i else i - 1, if k < n then k else k - 1;
    var r := RemoveAt(q, n);
    assert r[i'] == a && r[k'] == b;
  }

  lemma DiscardBefore(s: State, t: State, j: Id, k: Home, a: Id, b: Id)
    requires Discards(s, t, j)
    ensures Before(List(t.fifo, k), a, b) ==> Before(List(s.fifo, k), a, b)
    ensures Before(List(s.fifo, k), a, b) && a != j && b != j ==> Before(List(t.fifo, k), a, b)
  {
    hide Before, FirstDue, RemoveAt;
    var home := HomeOf(s.jobs[j]);
    if k == home {
      var q, n := s.fifo[home], FirstDue(s.jobs, s.fifo[home], s.clock);
      if Before(RemoveAt(q, n), a, b) { RemoveBefore(q, n, a, b); }
      if Before(q, a, b) && a != j && b != j { KeepBefore(q, n, a, b); }
    }
  }

  lemma DiscardAhead(s: State, t: State, j: Id, a: Id, b: Id)
    requires Discards(s, t, j) && a != j && b != j
    ensures Ahead(t, a, b) <==> Ahead(s, a, b)
  {
    hide Before, Leaves;
    if a in s.jobs && b in s.jobs { DiscardBefore(s, t, j, HomeOf(s.jobs[b]), a, b); }
  }

  ghost predicate Wanted(s: State, c: Id, j: Id) { Eligible(s, c, j) && !s.jobs[j].ignore }

  /** `j` is the best of the eligible jobs that are not ignored. */
  ghost predicate Best(s: State, c: Id, j: Id) {
    Wanted(s, c, j) && forall a :: Wanted(s, c, a) ==> !Ahead(s, a, j)
  }

  lemma DiscardBest(s: State, t: State, c: Id, j: Id, best: Id)
    requires Discards(s, t, j) && s.jobs[j].ignore && Best(t, c, best)
    ensures Best(s, c, best)
  {
    hide Discards, Ahead, Wanted;
    DiscardWanted(s, t, c, j, best);
    forall a | Wanted(s, c, a) ensures !Ahead(s, a, best) {
      DiscardWanted(s, t, c, j, a);
      DiscardAhead(s, t, j, a, best);
    }
  }

  lemma DiscardWanted(s: State, t: State, c: Id, j: Id, a: Id)
    requires Discards(s, t, j) && s.jobs[j].ignore
    ensures Wanted(t, c, a) <==> Wanted(s, c, a)
    ensures Wanted(s, c, a) ==> a != j
  {
    hide Leaves, Serves;
    DiscardEligible(s, t, c, j, a);
  }

  /** `take` takes the first of the due jobs of the highest priority the connection can run, past
      the ignored ones; it finds nothing only when there is no such job. */
  lemma {:induction false} TakeBest(cfg: Config, s: State, x: Phase, c: Id)
    requires Inv(cfg, s, x) && Steady(x)
    ensures var (t, j) := Take(cfg, s, c);
            if j.Some? then Best(s, c, j.value) && RunsOn(t, j.value, c) else forall a :: !Wanted(s, c, a)
    decreases |s.jobs|
  {
    hide Inv, Pick, FreeJob, Best, Eligible, Ahead, Discards, RunsOn;
    PickBest(cfg, s, x, c);
    PickInv(cfg, s, x, c, PRIORITIES);
    var (s1, j) := Pick(cfg, s, c, PRIORITIES);
    if j.Some? {
      Floating(cfg, s1, Taken(x, j), j.value);
      Picked(s, s1, c, j.value);
      if s.jobs[j.value].ignore {
        SelectDiscards(cfg, s, Taken(x, j), s1, c, j.value);
        FreeJobInv(cfg, s1, Taken(x, j), j.value);
        var s2 := FreeJob(cfg, s1, j.value);
        ForgetInv(cfg, s2, x, j.value);
        FreeJobKeys(cfg, s1, j.value);
        Shrinks(s, s2, j.value);
        TakeBest(cfg, s2, x, c);
        AfterDiscard(s, s2, c, j.value, Take(cfg, s2, c).1);
      }
    }
  }

  lemma Picked(s: State, t: State, c: Id, j: Id)
    requires Selects(s, t, c, j)
    ensures j in s.jobs && j in t.runs && t.jobs == s.jobs && RunsOn(t, j, c)
    ensures !s.jobs[j].ignore && (forall a :: Eligible(s, c, a) ==> !Ahead(s, a, j)) ==> Best(s, c, j)
  {
    hide Leaves, Ahead, Serves;
  }

  lemma AfterDiscard(s: State, t: State, c: Id, j: Id, found: Option<Id>)
    requires Discards(s, t, j) && s.jobs[j].ignore
    ensures found.Some? && Best(t, c, found.value) ==> Best(s, c, found.value)
    ensures (forall a :: !Wanted(t, c, a)) ==> forall a :: !Wanted(s, c, a)
  {
    hide Discards, Best, Wanted;
    if found.Some? && Best(t, c, found.value) { DiscardBest(s, t, c, j, found.value); }
    forall a: Id ensures Wanted(s, c, a) ==> Wanted(t, c, a) { DiscardWanted(s, t, c, j, a); }
  }

  // What stays

  /** The jobs `take` leaves queued keep their order, and it removes from the FIFOs only the job it
      takes and ignored jobs that were due. */
  ghost predicate Keeps(s: State, t: State, c: Id, taken: Option<Id>) {
    && (forall k, a, b :: Before(List(t.fifo, k), a, b) ==> Before(List(s.fifo, k), a, b))
    && (forall a :: a in s.jobs && a !in s.runs && taken != Some(a) && !(Eligible(s, c, a) && s.jobs[a].ignore) ==>
          a in t.jobs && a !in t.runs)
  }

  lemma SelectKeeps(s: State, t: State, c: Id, j: Id)
    requires Selects(s, t, c, j)
    ensures Keeps(s, t, c, Some(j))
  {
    hide Before, FirstDue, RemoveAt, Serves;
    forall k, a, b | Before(List(t.fifo, k), a, b) ensures Before(List(s.fifo, k), a, b) {
      var home := HomeOf(s.jobs[j]);
      if k == home { RemoveBefore(s.fifo[home], FirstDue(s.jobs, s.fifo[home], s.clock), a, b); }
    }
  }

  lemma DiscardKeeps(s: State, t: State, u: State, c: Id, j: Id, taken: Option<Id>)
    requires Discards(s, t, j) && Eligible(s, c, j) && s.jobs[j].ignore && Keeps(t, u, c, taken)
    ensures Keeps(s, u, c, taken)
  {
    hide Before, Leaves, Serves, Eligible;
    forall k, a, b | Before(List(u.fifo, k), a, b) ensures Before(List(s.fifo, k), a, b) {
      DiscardBefore(s, t, j, k, a, b);
    }
    forall a: Id { DiscardEligible(s, t, c, j, a); }
  }

  lemma {:induction false} TakeKeeps(cfg: Config, s: State, x: Phase, c: Id)
    requires Inv(cfg, s, x) && Steady(x)
    ensures var (t, j) := Take(cfg, s, c); Keeps(s, t, c, j)
    decreases |s.jobs|
  {
    hide Inv, Pick, FreeJob, Keeps, Eligible, Ahead, Discards, RunsOn;
    PickBest(cfg, s, x, c);
    PickSelects(cfg, s, x, c, PRIORITIES);
    PickInv(cfg, s, x, c, PRIORITIES);
    var (s1, j) := Pick(cfg, s, c, PRIORITIES);
    if j.None? {
      SameKeeps(s, s1, c);
    } else {
      Floating(cfg, s1, Taken(x, j), j.value);
      Picked(s, s1, c, j.value);
      if s.jobs[j.value].ignore {
        SelectDiscards(cfg, s, Taken(x, j), s1, c, j.value);
        FreeJobInv(cfg, s1, Taken(x, j), j.value);
        var s2 := FreeJob(cfg, s1, j.value);
        ForgetInv(cfg, s2, x, j.value);
        FreeJobKeys(cfg, s1, j.value);
        Shrinks(s, s2, j.value);
        TakeKeeps(cfg, s2, x, c);
        DiscardKeeps(s, s2, Take(cfg, s2, c).0, c, j.value, Take(cfg, s2, c).1);
      } else {
        SelectKeeps(s, s1, c, j.value);
      }
    }
  }

  lemma SameKeeps(s: State, t: State, c: Id)
    requires t == s.(conWorkers := t.conWorkers)
    ensures Keeps(s, t, c, None)
  {
    hide Before, Eligible;
  }
}
