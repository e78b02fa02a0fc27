/** What `gearman_server_job_peek` discards. It looks worker by worker, but discards through
    `gearman_server_job_take`, which goes by priority first. */
module Peeking {
  import opened Seqs
  import opened Ownership
  import opened Scheduler
  import opened Invariant
  import opened Records
  import opened Notices
  import opened JobOps
  import opened Selection
  import opened Choices
  import opened Steps
  import opened Taking

  ghost predicate NoDue(s: State, f: Name, p: Priority) {
    var q := List(s.fifo, (f, p));
    FirstDue(s.jobs, q, s.clock) == |q|
  }

  ghost predicate FirstOf(s: State, k: Home, j: Id) {
    var q := List(s.fifo, k);
    FirstDue(s.jobs, q, s.clock) < |q| && q[FirstDue(s.jobs, q, s.clock)] == j
  }

  /** Job `j` is what the worker at position `n` is the first to offer. */
  ghost predicate Looked(s: State, ws: seq<Id>, n: nat, j: Id) {
    && n < |ws| && ws[n] in s.workers && j in s.jobs
    && HomeOf(s.jobs[j]).0 == s.workers[ws[n]].fn && FirstOf(s, HomeOf(s.jobs[j]), j)
    && (forall p :: Rank(p) < Rank(s.jobs[j].spec.priority) ==> NoDue(s, s.workers[ws[n]].fn, p))
    && (forall i, p :: 0 <= i < n && ws[i] in s.workers ==> NoDue(s, s.workers[ws[i]].fn, p))
  }

  // Looking

  lemma {:induction false} LookAtFinds(s: State, w: Id, ps: seq<Priority>) returns (p: Priority)
    requires w in s.workers && LookAt(s, w, ps).Some? && Ascending(ps)
    ensures p in ps && FirstOf(s, (s.workers[w].fn, p), LookAt(s, w, ps).value)
    ensures forall q :: q in ps && Rank(q) < Rank(p) ==> NoDue(s, s.workers[w].fn, q)
  {
    hide FirstDue;
    p := ps[0];
    if NoDue(s, s.workers[w].fn, ps[0]) {
      assert ps == [ps[0]] + ps[1..];
      p := LookAtFinds(s, w, ps[1..]);
    }
  }

  lemma AscendingAll()
    ensures Ascending(PRIORITIES) && forall p: Priority :: p in PRIORITIES
  {
    forall p: Priority ensures p in PRIORITIES { Ranked(p); }
  }

  /** A worker passed by has no due job at all. */
  lemma NoneOffered(cfg: Config, s: State, x: Phase, w: Id, p: Priority)
    requires Inv(cfg, s, x) && w in s.workers
    requires s.workers[w].fn in s.fns && s.fns[s.workers[w].fn].jobCount != 0 ==> LookAt(s, w, PRIORITIES).None?
    ensures NoDue(s, s.workers[w].fn, p)
  {
    hide Inv, LookAt, FirstDue;
    var k := (s.workers[w].fn, p);
    if List(s.fifo, k) != [] {
      FifoJob(cfg, s, x, k, 0);
      assert s.fifo[k][0] in s.fifo[k];
      Busy(cfg, s, x, k, s.fifo[k][0]);
      AscendingAll();
      LookAtNone(s, w, PRIORITIES, p);
    }
  }

  lemma {:induction false} LookFinds(cfg: Config, s: State, x: Phase, ws: seq<Id>) returns (n: nat)
    requires Inv(cfg, s, x) && Look(s, ws).Some?
    ensures Looked(s, ws, n, Look(s, ws).value)
  {
    hide Inv, LookAt, FirstOf, NoDue;
    var w := ws[0];
    var busy := w in s.workers && s.workers[w].fn in s.fns && s.fns[s.workers[w].fn].jobCount != 0;
    if busy && LookAt(s, w, PRIORITIES).Some? {
      n := 0;
      AscendingAll();
      var p := LookAtFinds(s, w, PRIORITIES);
      First(cfg, s, x, (s.workers[w].fn, p), LookAt(s, w, PRIORITIES).value);
    } else {
      n := LookFinds(cfg, s, x, ws[1..]);
      n := n + 1;
      if w in s.workers {
        forall p: Priority ensures NoDue(s, s.workers[w].fn, p) { NoneOffered(cfg, s, x, w, p); }
      }
    }
  }

  lemma First(cfg: Config, s: State, x: Phase, k: Home, j: Id)
    requires Inv(cfg, s, x) && FirstOf(s, k, j)
    ensures j in s.jobs && j !in s.runs && HomeOf(s.jobs[j]) == k && Due(s.jobs[j], s.clock)
  {
    hide Inv, FirstDue;
    FifoJob(cfg, s, x, k, FirstDue(s.jobs, List(s.fifo, k), s.clock));
  }

  // Taking what was looked at

  /** No eligible job has a higher priority than `j`. */
  ghost predicate Unbeaten(s: State, c: Id, j: Id) {
    j in s.jobs && forall a :: Eligible(s, c, a) ==> Rank(s.jobs[j].spec.priority) <= Rank(s.jobs[a].spec.priority)
  }

  lemma NotReady(cfg: Config, s: State, x: Phase, c: Id, j: Id, p: Priority)
    requires Inv(cfg, s, x) && Steady(x) && Unbeaten(s, c, j) && Rank(p) < Rank(s.jobs[j].spec.priority)
    ensures Scan(cfg, s, List(s.conWorkers, c), p).1.None?
  {
    hide Inv, Scan, Eligible, FirstDue;
    if Scan(cfg, s, List(s.conWorkers, c), p).1.Some? {
      AttachSelects(cfg, s, x, c, p);
      assert false;
    }
  }

  lemma LookedReady(cfg: Config, s: State, x: Phase, c: Id, n: nat, j: Id)
    requires Inv(cfg, s, x) && Looked(s, List(s.conWorkers, c), n, j)
    ensures FirstReady(s, List(s.conWorkers, c), s.jobs[j].spec.priority) == n
  {
    hide Inv, FirstDue, Classify;
    var ws, p := List(s.conWorkers, c), s.jobs[j].spec.priority;
    ReadyIff(cfg, s, x, ws[n], p);
    forall i | 0 <= i < n ensures !Classify(s, ws[i], p).Ready? {
      if ws[i] in s.workers {
        assert NoDue(s, s.workers[ws[i]].fn, p);
        ReadyIff(cfg, s, x, ws[i], p);
      } else {
        Unknown(s, ws[i], p);
      }
    }
  }

  lemma Unknown(s: State, w: Id, p: Priority)
    requires w !in s.workers
    ensures Classify(s, w, p).Skip?
  {}

  /** A scan does not turn the list: there is no round robin, or nothing to turn. */
  ghost predicate Fixed(cfg: Config, ws: seq<Id>) { !cfg.roundRobin || |ws| <= 1 }

  lemma SamePlain(cfg: Config, s: State, c: Id, p: Priority)
    requires Fixed(cfg, List(s.conWorkers, c))
    ensures List(Rotated(cfg, s, c, p).conWorkers, c) == List(s.conWorkers, c)
  {
    hide FirstReady, Skips, Waits;
    var ws := List(s.conWorkers, c);
    if cfg.roundRobin {
      hide Scan;
      ScanReorders(cfg, s, ws, p);
      Alone(ws, Scan(cfg, s, ws, p).0);
    }
  }

  lemma Alone(q: seq<Id>, r: seq<Id>)
    requires |q| <= 1 && Reordered(q, r)
    ensures r == q
  {
    ElemsSize(q);
    ElemsSize(r);
    assert Elems(q) == Elems(r);
    assert forall i :: 0 <= i < |r| ==> r[i] in r;
  }

  lemma SameLooked(cfg: Config, s: State, c: Id, p: Priority, ws: seq<Id>, n: nat, j: Id)
    requires Looked(s, ws, n, j) && Unbeaten(s, c, j)
    ensures Looked(Rotated(cfg, s, c, p), ws, n, j) && Unbeaten(Rotated(cfg, s, c, p), c, j)
  {
    hide Scan, FirstDue, Eligible;
    var t := Rotated(cfg, s, c, p);
    forall a: Id { RotatedEligible(cfg, s, c, p, a); }
    assert forall f, q :: NoDue(t, f, q) <==> NoDue(s, f, q);
    assert forall k :: FirstOf(t, k, j) <==> FirstOf(s, k, j);
    hide NoDue, FirstOf;
  }

  /** With the list as it is, a job that was looked at and is unbeaten is what a selection selects. */
  lemma {:induction false} PickLooked(cfg: Config, s: State, x: Phase, c: Id, ps: seq<Priority>, n: nat, j: Id)
    requires Inv(cfg, s, x) && Steady(x) && Fixed(cfg, List(s.conWorkers, c)) && Ascending(ps)
    requires Looked(s, List(s.conWorkers, c), n, j) && Unbeaten(s, c, j) && s.jobs[j].spec.priority in ps
    ensures Pick(cfg, s, c, ps).1 == Some(j)
    decreases |ps|
  {
    hide Inv, FirstDue, Unbeaten, Attach, Skips, Waits, FirstReady, NoDue, Rotated;
    if ps[0] == s.jobs[j].spec.priority {
      LookedReady(cfg, s, x, c, n, j);
    } else {
      assert ps == [ps[0]] + ps[1..];
      NotReady(cfg, s, x, c, j, ps[0]);
      RotatedInv(cfg, s, x, c, ps[0]);
      SamePlain(cfg, s, c, ps[0]);
      SameLooked(cfg, s, c, ps[0], List(s.conWorkers, c), n, j);
      RotatedJobs(cfg, s, c, ps[0]);
      PickLooked(cfg, Rotated(cfg, s, c, ps[0]), x, c, ps[1..], n, j);
    }
  }

  lemma RotatedJobs(cfg: Config, s: State, c: Id, p: Priority)
    ensures Rotated(cfg, s, c, p).jobs == s.jobs
  {}

  // Ignored jobs of higher priority are discarded on the way

  lemma {:induction false} FirstDueSame(a: map<Id, Job>, b: map<Id, Job>, q: seq<Id>, now: int)
    requires forall i :: 0 <= i < |q| ==> (q[i] in a <==> q[i] in b) && (q[i] in a ==> a[q[i]].spec == b[q[i]].spec)
    ensures FirstDue(a, q, now) == FirstDue(b, q, now)
  {
    if q != [] { FirstDueSame(a, b, q[1..], now); }
  }

  lemma DiscardNoDue(s: State, t: State, j: Id, f: Name, p: Priority)
    requires Discards(s, t, j) && NoDue(s, f, p)
    ensures NoDue(t, f, p)
  {
    var q, r := List(s.fifo, (f, p)), List(t.fifo, (f, p));
    assert forall i :: 0 <= i < |q| ==> !(q[i] in s.jobs && Due(s.jobs[q[i]], s.clock));
    assert forall y :: y in r ==> y in q;
    hide FirstDue;
    forall i | 0 <= i < |r| ensures !(r[i] in t.jobs && Due(t.jobs[r[i]], t.clock)) {
      assert r[i] in r;
    }
  }

  lemma DiscardFirst(s: State, t: State, a: Id, k: Home, j: Id)
    requires Discards(s, t, a) && FirstOf(s, k, j) && HomeOf(s.jobs[a]) != k
    requires forall y :: y in List(s.fifo, k) ==> y != a
    ensures FirstOf(t, k, j)
  {
    hide FirstDue, RemoveAt;
    var q := List(s.fifo, k);
    assert forall i :: 0 <= i < |q| ==> q[i] in q;
    FirstDueSame(s.jobs, t.jobs, q, s.clock);
  }

  lemma DiscardLooked(cfg: Config, s: State, x: Phase, t: State, ws: seq<Id>, n: nat, j: Id, a: Id)
    requires Inv(cfg, s, x) && Steady(x) && Looked(s, ws, n, j) && Discards(s, t, a) && Due(s.jobs[a], s.clock)
    requires Rank(s.jobs[a].spec.priority) < Rank(s.jobs[j].spec.priority)
    ensures Looked(t, ws, n, j)
  {
    hide Inv, NoDue, FirstOf, Leaves;
    forall f, p | NoDue(s, f, p) ensures NoDue(t, f, p) { DiscardNoDue(s, t, a, f, p); }
    Elsewhere(cfg, s, x, HomeOf(s.jobs[j]), a);
    OtherFn(cfg, s, x, a, s.workers[ws[n]].fn);
    DiscardFirst(s, t, a, HomeOf(s.jobs[j]), j);
  }

  lemma OtherFn(cfg: Config, s: State, x: Phase, a: Id, f: Name)
    requires Inv(cfg, s, x) && Steady(x) && a in s.jobs && a !in s.runs && Due(s.jobs[a], s.clock)
    requires NoDue(s, f, s.jobs[a].spec.priority)
    ensures s.jobs[a].spec.fn != f
  {
    hide Inv, FirstDue, NoDup;
    Queued(cfg, s, x, a);
    var q := List(s.fifo, HomeOf(s.jobs[a]));
    var i :| 0 <= i < |q| && q[i] == a;
  }

  lemma Elsewhere(cfg: Config, s: State, x: Phase, k: Home, a: Id)
    requires Inv(cfg, s, x) && a in s.jobs && HomeOf(s.jobs[a]) != k
    ensures forall y :: y in List(s.fifo, k) ==> y != a
  {
    hide Inv;
    forall y | y in List(s.fifo, k) ensures y != a {
      var i :| 0 <= i < |List(s.fifo, k)| && List(s.fifo, k)[i] == y;
      FifoJob(cfg, s, x, k, i);
    }
  }

  lemma {:induction false} PickPlain(cfg: Config, s: State, c: Id, ps: seq<Priority>)
    requires Fixed(cfg, List(s.conWorkers, c))
    ensures List(Pick(cfg, s, c, ps).0.conWorkers, c) == List(s.conWorkers, c)
    decreases |ps|
  {
    hide Scan, FirstDue, Rotated;
    if ps != [] {
      SamePlain(cfg, s, c, ps[0]);
      if Scan(cfg, s, List(s.conWorkers, c), ps[0]).1.None? { PickPlain(cfg, Rotated(cfg, s, c, ps[0]), c, ps[1..]); }
    }
  }

  /** What is eligible and of higher priority is ignored. */
  ghost predicate Clear(s: State, c: Id, j: Id) {
    j in s.jobs && forall a :: Eligible(s, c, a) && Rank(s.jobs[a].spec.priority) < Rank(s.jobs[j].spec.priority) ==>
        s.jobs[a].ignore
  }

  lemma DiscardClear(s: State, t: State, c: Id, j: Id, a: Id)
    requires Clear(s, c, j) && Discards(s, t, a) && a != j
    ensures Clear(t, c, j)
  {
    hide Eligible, Leaves;
    forall b: Id { DiscardEligible(s, t, c, a, b); }
    Live1(s, t, c);
  }

  lemma Live1(s: State, t: State, c: Id)
    ensures forall b :: Eligible(t, c, b) ==> b in t.jobs
    ensures forall b :: Eligible(s, c, b) ==> b in s.jobs
  {}

  /** A beaten job: the selection is for an ignored one of higher priority. */
  lemma Beaten(cfg: Config, s: State, x: Phase, c: Id, j: Id)
    requires Inv(cfg, s, x) && Steady(x) && Clear(s, c, j) && !Unbeaten(s, c, j)
    ensures var (t, b) := Pick(cfg, s, c, PRIORITIES);
            && b.Some? && Selects(s, t, c, b.value) && s.jobs[b.value].ignore && Due(s.jobs[b.value], s.clock)
            && Rank(s.jobs[b.value].spec.priority) < Rank(s.jobs[j].spec.priority)
  {
    hide Inv, Pick, Serves, Leaves;
    AscendingAll();
    var a :| Eligible(s, c, a) && Rank(s.jobs[a].spec.priority) < Rank(s.jobs[j].spec.priority);
    PickHighest(cfg, s, x, c, PRIORITIES, a);
    PickSelects(cfg, s, x, c, PRIORITIES);
  }

  lemma {:induction false} TakeLooked(cfg: Config, s: State, x: Phase, c: Id, n: nat, j: Id)
    requires Inv(cfg, s, x) && Steady(x) && Fixed(cfg, List(s.conWorkers, c))
    requires Looked(s, List(s.conWorkers, c), n, j) && !s.jobs[j].ignore && Clear(s, c, j)
    ensures Take(cfg, s, c).1 == Some(j)
    decreases |s.jobs|
  {
    hide Inv, Pick, FreeJob, NoDue, FirstOf, Eligible, Discards, Leaves, Looked, Clear, Unbeaten;
    AscendingAll();
    LookedJob(s, List(s.conWorkers, c), n, j);
    if Unbeaten(s, c, j) {
      PickLooked(cfg, s, x, c, PRIORITIES, n, j);
    } else {
      Beaten(cfg, s, x, c, j);
      PickInv(cfg, s, x, c, PRIORITIES);
      var (s1, b) := Pick(cfg, s, c, PRIORITIES);
      Floating(cfg, s1, Taken(x, b), b.value);
      SelectDiscards(cfg, s, Taken(x, b), s1, c, b.value);
      FreeJobInv(cfg, s1, Taken(x, b), b.value);
      var s2 := FreeJob(cfg, s1, b.value);
      ForgetInv(cfg, s2, x, b.value);
      FreeJobKeys(cfg, s1, b.value);
      Shrinks(s, s2, b.value);
      PickPlain(cfg, s, c, PRIORITIES);
      FreeJobFrame(cfg, s1, b.value);
      DiscardLooked(cfg, s, x, s2, List(s.conWorkers, c), n, j, b.value);
      DiscardClear(s, s2, c, j, b.value);
      Others(s, s2, b.value, j);
      TakeLooked(cfg, s2, x, c, n, j);
    }
  }

  lemma LookedJob(s: State, ws: seq<Id>, n: nat, j: Id)
    requires Looked(s, ws, n, j)
    ensures j in s.jobs
  {}

  lemma Others(s: State, t: State, a: Id, j: Id)
    requires Discards(s, t, a) && j in s.jobs && j != a
    ensures j in t.jobs && t.jobs[j] == s.jobs[j]
  {}

  // The discard

  lemma FlagLooked(s: State, ws: seq<Id>, n: nat, j: Id, i: Id, job: Job)
    requires Looked(s, ws, n, j) && i in s.jobs && job.spec == s.jobs[i].spec
    ensures Looked(SetJob(s, i, job), ws, n, j)
  {
    hide FirstDue;
    var t := SetJob(s, i, job);
    forall f, p ensures NoDue(s, f, p) ==>
        NoDue(t, f, p) { FirstDueSame(t.jobs, s.jobs, List(s.fifo, (f, p)), s.clock); }
    FirstDueSame(t.jobs, s.jobs, List(s.fifo, HomeOf(s.jobs[j])), s.clock);
    assert FirstOf(t, HomeOf(s.jobs[j]), j);
    hide NoDue, FirstOf;
  }

  lemma FlagClear(s: State, c: Id, j: Id)
    requires j in s.jobs
    ensures Clear(SetJob(s, j, s.jobs[j].(ignore := false)), c, j) <==> Clear(s, c, j)
  {
    var t := SetJob(s, j, s.jobs[j].(ignore := false));
    assert forall a :: Eligible(t, c, a) <==> Eligible(s, c, a);
    Live1(s, t, c);
    hide Eligible;
  }

  lemma BestClear(s: State, c: Id, j: Id)
    requires Best(s, c, j)
    ensures Clear(s, c, j)
  {
    hide Serves, Before;
    forall a | Eligible(s, c, a) && Rank(s.jobs[a].spec.priority) < Rank(s.jobs[j].spec.priority)
        ensures s.jobs[a].ignore {
      assert Ahead(s, a, j);
    }
  }

  /** When `peek` comes upon an ignored job, the job that it makes `take` remove is that one exactly
      when every eligible job of higher priority is ignored too; otherwise a job that somebody waits
      for is lost. (The list of workers must not turn: no round robin, or a single worker.) */
  lemma PeekDiscards(cfg: Config, s: State, x: Phase, c: Id, j: Id)
    requires Inv(cfg, s, x) && Steady(x) && Fixed(cfg, List(s.conWorkers, c))
    requires Look(s, List(s.conWorkers, c)) == Some(j) && j in s.jobs && s.jobs[j].ignore
    ensures Take(cfg, SetJob(s, j, s.jobs[j].(ignore := false)), c).1 == Some(j) <==> Clear(s, c, j)
  {
    hide Inv, Look, Take, Looked, Clear, Best;
    var job := s.jobs[j].(ignore := false);
    var t := SetJob(s, j, job);
    FlagInv(cfg, s, x, j, job);
    FlagClear(s, c, j);
    var n := LookFinds(cfg, s, x, List(s.conWorkers, c));
    FlagLooked(s, List(s.conWorkers, c), n, j, j, job);
    if Clear(s, c, j) {
      TakeLooked(cfg, t, x, c, n, j);
    } else {
      TakeBest(cfg, t, x, c);
      if Take(cfg, t, c).1 == Some(j) { BestClear(t, c, j); }
    }
  }

  /** With one worker on the connection, `peek` and `take` agree. */
  lemma OneWorkerAgrees(cfg: Config, s: State, x: Phase, c: Id, j: Id)
    requires Inv(cfg, s, x) && Steady(x) && |List(s.conWorkers, c)| == 1
    requires Look(s, List(s.conWorkers, c)) == Some(j) && j in s.jobs && s.jobs[j].ignore
    ensures Take(cfg, SetJob(s, j, s.jobs[j].(ignore := false)), c).1 == Some(j)
  {
    hide Inv, Look, Take, Eligible, NoDue, FirstOf;
    var n := LookFinds(cfg, s, x, List(s.conWorkers, c));
    forall a | Eligible(s, c, a) ensures a in s.jobs && Rank(s.jobs[j].spec.priority) <= Rank(s.jobs[a].spec.priority) {
      OnlyWorker(cfg, s, x, c, n, j, a);
    }
    PeekDiscards(cfg, s, x, c, j);
  }

  lemma OnlyWorker(cfg: Config, s: State, x: Phase, c: Id, n: nat, j: Id, a: Id)
    requires Inv(cfg, s, x) && Steady(x) && |List(s.conWorkers, c)| == 1
    requires Looked(s, List(s.conWorkers, c), n, j) && Eligible(s, c, a)
    ensures a in s.jobs && Rank(s.jobs[j].spec.priority) <= Rank(s.jobs[a].spec.priority)
  {
    hide Inv, NoDue, FirstOf;
    var w, i := EligibleAt(cfg, s, x, c, a);
    if Rank(s.jobs[a].spec.priority) < Rank(s.jobs[j].spec.priority) {
      OtherFn(cfg, s, x, a, s.jobs[j].spec.fn);
    }
  }
}
