/** The invariant through the choice of the next job of a connection. */
module Choices {
  import opened Seqs
  import opened Ownership
  import opened Scheduler
  import opened Tables
  import opened Uniques
  import opened Retries
  import opened Traces
  import opened Timers
  import opened Wakeups
  import opened Invariant
  import opened Records
  import opened Notices
  import opened JobOps
  import opened Selection

  // A scan reorders the workers of a connection

  lemma {:induction false} FilterKeeps<T>(p: T -> bool, q: seq<T>)
    requires NoDup(q)
    ensures NoDup(Filter(p, q)) && forall x :: x in Filter(p, q) <==> x in q && p(x)
  {
    if q != [] {
      assert q == [q[0]] + q[1..];
      FilterKeeps(p, q[1..]);
    }
  }

  lemma Glue<T>(q: seq<T>, r: seq<T>)
    requires NoDup(q) && NoDup(r) && forall x :: x in q ==> x !in r
    ensures NoDup(q + r) && forall x :: x in q + r <==> x in q || x in r
  {
    forall i, j | 0 <= i < j < |q + r| ensures (q + r)[i] != (q + r)[j] {
      if i < |q| <= j {
        assert q[i] in q && r[j - |q|] in r;
      }
    }
  }

  lemma Cut<T>(q: seq<T>, i: nat)
    requires NoDup(q) && i < |q|
    ensures NoDup(q[..i]) && NoDup(q[i + 1..])
    ensures forall x :: x in q <==> x in q[..i] || x == q[i] || x in q[i + 1..]
    ensures q[i] !in q[..i] && q[i] !in q[i + 1..] && forall x :: x in q[..i] ==> x !in q[i + 1..]
  {
    assert q == q[..i] + [q[i]] + q[i + 1..];
  }

  lemma PassedKeep(s: State, ws: seq<Id>, p: Priority)
    requires NoDup(ws)
    ensures NoDup(Skips(s, ws, p)) && NoDup(Waits(s, ws, p))
    ensures forall w :: w in Skips(s, ws, p) <==> w in ws && Classify(s, w, p).Skip?
    ensures forall w :: w in Waits(s, ws, p) <==> w in ws && Classify(s, w, p).Wait?
  {
    hide Classify, Filter;
    FilterKeeps(w => Classify(s, w, p).Skip?, ws);
    FilterKeeps(w => Classify(s, w, p).Wait?, ws);
  }

  lemma UnselectedReorders(cfg: Config, s: State, ws: seq<Id>, p: Priority)
    requires NoDup(ws) && FirstReady(s, ws, p) == |ws|
    ensures Reordered(ws, Skips(s, ws, p) + Waits(s, ws, p))
  {
    hide Skips, Waits, Classify;
    PassedKeep(s, ws, p);
    Glue(Skips(s, ws, p), Waits(s, ws, p));
    assert forall w :: w in ws ==> !Classify(s, w, p).Ready?;
  }

  lemma SelectedReorders(cfg: Config, s: State, ws: seq<Id>, p: Priority, i: nat)
    requires NoDup(ws) && FirstReady(s, ws, p) == i < |ws|
    ensures Reordered(ws, Skips(s, ws[..i], p) + ws[i + 1..] + Waits(s, ws[..i], p) + [ws[i]])
  {
    hide FirstReady, Skips, Waits, Classify;
    Cut(ws, i);
    var front := ws[..i];
    PassedKeep(s, front, p);
    var a, b, c := Skips(s, front, p), ws[i + 1..], Waits(s, front, p);
    assert forall w :: w in front ==> !Classify(s, w, p).Ready?;
    Glue(a, b);
    Glue(a + b, c);
    Glue(a + b + c, [ws[i]]);
  }

  /** Whatever a priority scan does to the list of workers, it loses and repeats none. */
  lemma ScanReorders(cfg: Config, s: State, ws: seq<Id>, p: Priority)
    requires NoDup(ws)
    ensures Reordered(ws, Scan(cfg, s, ws, p).0)
  {
    hide Classify, Skips, Waits, FirstReady;
    var i := FirstReady(s, ws, p);
    if cfg.roundRobin {
      if i == |ws| { UnselectedReorders(cfg, s, ws, p); } else { SelectedReorders(cfg, s, ws, p, i); }
    }
  }

  lemma RotatedLists(cfg: Config, s: State, floating: set<Id>, c: Id, q: seq<Id>)
    requires ListsOk(cfg, s, floating) && Reordered(List(s.conWorkers, c), q)
    ensures ListsOk(cfg, s.(conWorkers := s.conWorkers[c := q]), floating)
  {
    hide Owned, Waiting, HandleBuckets, UniqueBuckets, Owner;
    OwnedTurn(Owner(s.workers, ConOf), s.conWorkers, c, q);
  }

  lemma ConList(cfg: Config, s: State, floating: set<Id>, c: Id)
    requires ListsOk(cfg, s, floating)
    ensures NoDup(List(s.conWorkers, c))
    ensures forall w :: w in List(s.conWorkers, c) <==> w in s.workers && s.workers[w].con == c
  {
    var ws := List(s.conWorkers, c);
    forall w ensures w in ws <==> w in s.workers && s.workers[w].con == c {
      if w in s.workers { assert Owner(s.workers, ConOf)[w] == s.workers[w].con; }
      if w in ws { assert w in Owner(s.workers, ConOf); }
    }
  }

  lemma RotatedInv(cfg: Config, s: State, x: Phase, c: Id, p: Priority)
    requires Inv(cfg, s, x)
    ensures Inv(cfg, Rotated(cfg, s, c, p), x)
  {
    hide ListsOk, JobRefs, RunRefs, WorkerRefs, ClientRefs, ConRefs, Live, CountsOk, KeysOk, Durable, RetriesOk,
         TraceOk, TimersOk, WatchOk, Scan;
    ConList(cfg, s, x.floating, c);
    ScanReorders(cfg, s, List(s.conWorkers, c), p);
    RotatedLists(cfg, s, x.floating, c, Scan(cfg, s, List(s.conWorkers, c), p).0);
  }

  // Taking

  /** The worker a scan selects is one of the connection's, with a due job. */
  lemma ScanFinds(cfg: Config, s: State, x: Phase, c: Id, p: Priority)
    requires Inv(cfg, s, x)
    ensures var found := Scan(cfg, s, List(s.conWorkers, c), p).1;
            found.Some? ==>
              && found.value in s.workers && s.workers[found.value].con == c
              && var k := (s.workers[found.value].fn, p);
                 k in s.fifo && FirstDue(s.jobs, s.fifo[k], s.clock) < |s.fifo[k]|
  {
    hide ListsOk, RefsOk, CountsOk, KeysOk, Durable, RetriesOk, TraceOk, TimersOk, WatchOk, FirstDue;
    ConList(cfg, s, x.floating, c);
  }

  /** A job that was just taken: it runs on connection `c`, and was not yet handed out for it. */
  ghost predicate Fresh(cfg: Config, s: State, c: Id, j: Id) {
    j in s.jobs && RunsOn(s, j, c) && Unassigned(cfg, s, j)
  }

  ghost function Taken(x: Phase, j: Option<Id>): Phase {
    if j.Some? then x.(quiet := x.quiet + {j.value}) else x
  }

  lemma FoundInv(cfg: Config, s: State, x: Phase, c: Id, p: Priority)
    requires Inv(cfg, s, x) && x.floating == {} && x.spent == {} && Scan(cfg, s, List(s.conWorkers, c), p).1.Some?
    ensures var w := Scan(cfg, s, List(s.conWorkers, c), p).1.value; w in s.workers && (s.workers[w].fn, p) in s.fifo
    ensures var w := Scan(cfg, s, List(s.conWorkers, c), p).1.value;
            var k := (s.workers[w].fn, p);
            var i := FirstDue(s.jobs, s.fifo[k], s.clock);
            && i < |s.fifo[k]|
            && var t := Attach(Rotated(cfg, s, c, p), k, i, w);
               Inv(cfg, t, Taken(x, Some(s.fifo[k][i]))) && Fresh(cfg, t, c, s.fifo[k][i])
  {
    hide Inv, Scan, FirstDue, Unassigned;
    ScanFinds(cfg, s, x, c, p);
    var w := Scan(cfg, s, List(s.conWorkers, c), p).1.value;
    var k := (s.workers[w].fn, p);
    var i := FirstDue(s.jobs, s.fifo[k], s.clock);
    var s1 := Rotated(cfg, s, c, p);
    RotatedInv(cfg, s, x, c, p);
    FifoJob(cfg, s1, x, k, i);
    AttachInv(cfg, s1, x, k, i, w);
    StillUnassigned(cfg, s1, Attach(s1, k, i, w), s.fifo[k][i]);
  }

  lemma {:induction false} PickInv(cfg: Config, s: State, x: Phase, c: Id, ps: seq<Priority>)
    requires Inv(cfg, s, x) && x.floating == {} && x.spent == {}
    ensures var (t, j) := Pick(cfg, s, c, ps); Inv(cfg, t, Taken(x, j)) && (j.Some? ==> Fresh(cfg, t, c, j.value))
    decreases |ps|
  {
    hide Inv, Scan, FirstDue, Fresh, Attach, Rotated;
    if ps != [] {
      if Scan(cfg, s, List(s.conWorkers, c), ps[0]).1.None? {
        RotatedInv(cfg, s, x, c, ps[0]);
        PickInv(cfg, Rotated(cfg, s, c, ps[0]), x, c, ps[1..]);
      } else {
        FoundInv(cfg, s, x, c, ps[0]);
      }
    }
  }

  lemma StillUnassigned(cfg: Config, s: State, t: State, j: Id)
    requires Unassigned(cfg, s, j) && t.out == s.out && t.jobs == s.jobs
    ensures Unassigned(cfg, t, j)
  {}

  lemma {:induction false} TakeInv(cfg: Config, s: State, x: Phase, c: Id)
    requires Inv(cfg, s, x) && x.floating == {} && x.spent == {}
    ensures var (t, j) := Take(cfg, s, c); Inv(cfg, t, Taken(x, j)) && (j.Some? ==> Fresh(cfg, t, c, j.value))
    decreases |s.jobs|
  {
    hide Inv, Pick, FreeJob, Fresh;
    var (s1, j) := Pick(cfg, s, c, PRIORITIES);
    PickInv(cfg, s, x, c, PRIORITIES);
    if j.Some? && s1.jobs[j.value].ignore {
      FreshRuns(cfg, s1, c, j.value);
      Floating(cfg, s1, Taken(x, j), j.value);
      FreeJobInv(cfg, s1, Taken(x, j), j.value);
      var s2 := FreeJob(cfg, s1, j.value);
      ForgetInv(cfg, s2, x, j.value);
      FreeJobKeys(cfg, s1, j.value);
      Shrinks(s, s2, j.value);
      TakeInv(cfg, s2, x, c);
    }
  }

  lemma FreshRuns(cfg: Config, s: State, c: Id, j: Id)
    requires Fresh(cfg, s, c, j)
    ensures j in s.jobs && j in s.runs && Unassigned(cfg, s, j) && RunsOn(s, j, c)
  {}

  lemma {:induction false} PeekInv(cfg: Config, s: State, x: Phase, c: Id)
    requires Inv(cfg, s, x) && x.floating == {} && x.spent == {}
    ensures Inv(cfg, Peek(cfg, s, c).0, x)
    decreases |s.jobs|
  {
    hide Inv, Look, Take, FreeJob, Fresh;
    var j := Look(s, List(s.conWorkers, c));
    if j.Some? && j.value in s.jobs && s.jobs[j.value].ignore {
      var job := s.jobs[j.value].(ignore := false);
      FlagInv(cfg, s, x, j.value, job);
      var s0 := SetJob(s, j.value, job);
      TakeInv(cfg, s0, x, c);
      var (s1, t) := Take(cfg, s0, c);
      if t.Some? {
        FreshRuns(cfg, s1, c, t.value);
        Floating(cfg, s1, Taken(x, t), t.value);
        FreeJobInv(cfg, s1, Taken(x, t), t.value);
        var s2 := FreeJob(cfg, s1, t.value);
        ForgetInv(cfg, s2, x, t.value);
        FreeJobKeys(cfg, s1, t.value);
        Shrinks(s, s2, t.value);
        PeekInv(cfg, s2, x, c);
      }
    }
  }
}
