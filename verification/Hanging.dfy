/** Exactly when the search for a job does not end, at a fixed clock. */
module Hanging {
  import opened Seqs
  import opened Scheduler
  import opened Invariant
  import opened Notices
  import opened JobOps
  import opened Selection
  import opened Choices
  import opened Commands
  import opened Steps
  import opened Taking
  import opened Peeking
  import opened Thinning

  /** A job that is not due waits, at priority `p`, for worker `w` of connection `c`. */
  ghost predicate Stalls(s: State, c: Id, w: Id, p: Priority) {
    && w in s.workers && s.workers[w].con == c
    && exists j :: j in s.jobs && j !in s.runs && HomeOf(s.jobs[j]) == (s.workers[w].fn, p) && !Due(s.jobs[j], s.clock)
  }

  /** Two workers of the connection have jobs at priority `p` that are not due. */
  ghost predicate Clogged(s: State, c: Id, p: Priority) {
    exists v, w :: v != w && Stalls(s, c, v, p) && Stalls(s, c, w, p)
  }

  // One scan

  lemma StallsWait(cfg: Config, s: State, x: Phase, c: Id, w: Id, p: Priority)
    requires Inv(cfg, s, x) && Steady(x) && w in List(s.conWorkers, c) && !Classify(s, w, p).Ready?
    ensures Classify(s, w, p).Wait? <==> Stalls(s, c, w, p)
  {
    hide Inv, FirstDue, NoDup, Classify;
    ConWorkers(cfg, s, x, c);
    ReadyIff(cfg, s, x, w, p);
    var k := (s.workers[w].fn, p);
    WaitIff(cfg, s, x, w, p);
    if List(s.fifo, k) != [] {
      FifoJob(cfg, s, x, k, 0);
    }
    if Stalls(s, c, w, p) {
      var j :| j in s.jobs && j !in s.runs && HomeOf(s.jobs[j]) == k && !Due(s.jobs[j], s.clock);
      Queued(cfg, s, x, j);
    }
  }

  lemma WaitIff(cfg: Config, s: State, x: Phase, w: Id, p: Priority)
    requires Inv(cfg, s, x) && w in s.workers && !Classify(s, w, p).Ready?
    ensures Classify(s, w, p).Wait? <==> List(s.fifo, (s.workers[w].fn, p)) != []
  {
    hide Inv, FirstDue;
    var k := (s.workers[w].fn, p);
    if List(s.fifo, k) != [] {
      FifoJob(cfg, s, x, k, 0);
      assert s.fifo[k][0] in s.fifo[k];
      Busy(cfg, s, x, k, s.fifo[k][0]);
    }
  }

  lemma TwoIn(q: seq<Id>, v: Id, w: Id)
    requires v != w && v in q && w in q
    ensures |q| >= 2
  {}

  /** A scan that finds nobody ready turns forever exactly when two workers wait. */
  lemma ScanClogs(cfg: Config, s: State, x: Phase, c: Id, p: Priority)
    requires Inv(cfg, s, x) && Steady(x) && cfg.roundRobin && Scan(cfg, s, List(s.conWorkers, c), p).1.None?
    ensures ScanHangs(cfg, s, List(s.conWorkers, c), p) <==> Clogged(s, c, p)
  {
    hide Inv, Classify, Skips, Waits, Stalls, NoDup;
    var ws := List(s.conWorkers, c);
    ConWorkers(cfg, s, x, c);
    PassedKeep(s, ws, p);
    forall w | w in ws ensures Classify(s, w, p).Wait? <==> Stalls(s, c, w, p) { StallsWait(cfg, s, x, c, w, p); }
    var q := Waits(s, ws, p);
    if |q| >= 2 { Distinct(q); }
    if Clogged(s, c, p) {
      var v, w :| v != w && Stalls(s, c, v, p) && Stalls(s, c, w, p);
      StallsHere(s, c, v, p);
      StallsHere(s, c, w, p);
      TwoIn(q, v, w);
    }
  }

  lemma StallsHere(s: State, c: Id, w: Id, p: Priority)
    requires Stalls(s, c, w, p)
    ensures w in s.workers && s.workers[w].con == c
  {}

  lemma Distinct(q: seq<Id>)
    requires NoDup(q) && |q| >= 2
    ensures q[0] in q && q[1] in q && q[0] != q[1]
  {}

  // One selection

  /** At some priority of `ps` two workers have jobs that are not due, and down to it no job is due. */
  ghost predicate Stuck(s: State, c: Id, ps: seq<Priority>) { exists p :: StuckAt(s, c, ps, p) }

  ghost predicate StuckAt(s: State, c: Id, ps: seq<Priority>, p: Priority) {
    && p in ps && Clogged(s, c, p)
    && forall a :: Eligible(s, c, a) && s.jobs[a].spec.priority in ps ==> Rank(p) < Rank(s.jobs[a].spec.priority)
  }

  lemma RotatedStuck(cfg: Config, s: State, c: Id, ps: seq<Priority>, p: Priority, q: Priority)
    ensures StuckAt(Rotated(cfg, s, c, q), c, ps, p) <==> StuckAt(s, c, ps, p)
  {
    hide Scan;
    var t := Rotated(cfg, s, c, q);
    forall a: Id { RotatedEligible(cfg, s, c, q, a); }
    assert forall w :: Stalls(t, c, w, p) <==> Stalls(s, c, w, p);
    hide Stalls, Eligible;
  }

  lemma {:induction false} PickStuck(cfg: Config, s: State, x: Phase, c: Id, ps: seq<Priority>)
    requires Inv(cfg, s, x) && Steady(x) && Ascending(ps)
    ensures PickHangs(cfg, s, c, ps) <==> cfg.roundRobin && Stuck(s, c, ps)
    decreases |ps|
  {
    hide Inv, Scan, ScanHangs, Eligible, Clogged, Rotated;
    if ps != [] {
      var ws := List(s.conWorkers, c);
      var s1 := Rotated(cfg, s, c, ps[0]);
      assert ps == [ps[0]] + ps[1..];
      HangsTurning(cfg, s, ws, ps[0]);
      if Scan(cfg, s, ws, ps[0]).1.None? {
        RotatedInv(cfg, s, x, c, ps[0]);
        PickStuck(cfg, s1, x, c, ps[1..]);
        if cfg.roundRobin { ScanClogs(cfg, s, x, c, ps[0]); }
        forall p: Priority { RotatedStuck(cfg, s, c, ps[1..], p, ps[0]); }
        StuckTail(cfg, s, x, c, ps);
      } else {
        NotStuck(cfg, s, x, c, ps);
      }
    }
  }

  lemma HangsTurning(cfg: Config, s: State, ws: seq<Id>, p: Priority)
    ensures ScanHangs(cfg, s, ws, p) ==> cfg.roundRobin && Scan(cfg, s, ws, p).1.None?
  {
    hide Waits, Skips, FirstReady;
  }

  lemma StuckTail(cfg: Config, s: State, x: Phase, c: Id, ps: seq<Priority>)
    requires Inv(cfg, s, x) && Steady(x) && Ascending(ps) && ps != []
    requires Scan(cfg, s, List(s.conWorkers, c), ps[0]).1.None?
    ensures Stuck(s, c, ps) <==> Clogged(s, c, ps[0]) || Stuck(s, c, ps[1..])
  {
    hide Inv, Scan, Clogged, Serves;
    assert ps == [ps[0]] + ps[1..];
    forall a | Eligible(s, c, a) ensures s.jobs[a].spec.priority != ps[0] { NoneReady(cfg, s, x, c, a); }
    hide Eligible;
    if Clogged(s, c, ps[0]) { assert StuckAt(s, c, ps, ps[0]); }
    forall p | StuckAt(s, c, ps[1..], p) ensures StuckAt(s, c, ps, p) {}
    forall p | StuckAt(s, c, ps, p) ensures p == ps[0] || StuckAt(s, c, ps[1..], p) {}
  }

  lemma NotStuck(cfg: Config, s: State, x: Phase, c: Id, ps: seq<Priority>)
    requires Inv(cfg, s, x) && Steady(x) && Ascending(ps) && ps != []
    requires Scan(cfg, s, List(s.conWorkers, c), ps[0]).1.Some?
    ensures !Stuck(s, c, ps)
  {
    hide Inv, Scan, Clogged, FirstDue, Serves;
    AttachSelects(cfg, s, x, c, ps[0]);
    assert forall p :: p in ps ==> Rank(ps[0]) <= Rank(p);
  }

  // GRAB_JOB

  /** Two workers of the connection have jobs at priority `p` that are not due, and no job that is wanted is
      due at that priority or above. */
  ghost predicate Blocked(s: State, c: Id, p: Priority) {
    Clogged(s, c, p) && forall a :: Wanted(s, c, a) ==> Rank(p) < Rank(s.jobs[a].spec.priority)
  }

  /** The states have the same workers, and the same jobs wait that are not due. */
  ghost predicate SameDelay(s: State, t: State) {
    && t.workers == s.workers && t.clock == s.clock
    && forall j :: Delayed(s, j) || Delayed(t, j) ==> Delayed(s, j) && Delayed(t, j) && t.jobs[j].spec == s.jobs[j].spec
  }

  ghost predicate Delayed(s: State, j: Id) { j in s.jobs && j !in s.runs && !Due(s.jobs[j], s.clock) }

  lemma SameClogged(s: State, t: State, c: Id, p: Priority)
    requires SameDelay(s, t)
    ensures Clogged(t, c, p) <==> Clogged(s, c, p)
  {
    forall w ensures Stalls(t, c, w, p) <==> Stalls(s, c, w, p) {
      StallsToo(s, t, c, w, p);
      StallsToo(t, s, c, w, p);
    }
    hide Stalls;
  }

  lemma StallsToo(s: State, t: State, c: Id, w: Id, p: Priority)
    requires SameDelay(s, t)
    ensures Stalls(s, c, w, p) ==> Stalls(t, c, w, p)
  {
    if Stalls(s, c, w, p) {
      var j :| j in s.jobs && j !in s.runs && HomeOf(s.jobs[j]) == (s.workers[w].fn, p) && !Due(s.jobs[j], s.clock);
      assert Delayed(s, j);
    }
  }

  lemma DiscardBlocked(s: State, t: State, c: Id, j: Id, p: Priority)
    requires Discards(s, t, j) && s.jobs[j].ignore && Due(s.jobs[j], s.clock)
    ensures Blocked(t, c, p) <==> Blocked(s, c, p)
  {
    hide Leaves, Clogged, Wanted;
    SameClogged(s, t, c, p);
    forall a: Id { DiscardWanted(s, t, c, j, a); }
    forall a | Wanted(s, c, a) ensures a in s.jobs && a in t.jobs && t.jobs[a] == s.jobs[a] { WantedReal(s, c, a); }
  }

  lemma WantedReal(s: State, c: Id, a: Id)
    requires Wanted(s, c, a)
    ensures a in s.jobs && Eligible(s, c, a)
  {}

  /** The first selection of `take`: what it finds is the best due job there is, ignored or not. */
  lemma PickBlocked(cfg: Config, s: State, x: Phase, c: Id, j: Option<Id>)
    requires Inv(cfg, s, x) && Steady(x) && j == Pick(cfg, s, c, PRIORITIES).1
    ensures Stuck(s, c, PRIORITIES) ==> exists p :: Blocked(s, c, p)
    ensures (exists p :: Blocked(s, c, p)) && (j.None? || (j.value in s.jobs && !s.jobs[j.value].ignore)) ==>
              Stuck(s, c, PRIORITIES)
  {
    hide Inv, Pick, Clogged, Serves;
    AscendingAll();
    PickSelects(cfg, s, x, c, PRIORITIES);
    forall a | Eligible(s, c, a)
      ensures j.Some? && Rank(s.jobs[j.value].spec.priority) <= Rank(s.jobs[a].spec.priority) {
      PickHighest(cfg, s, x, c, PRIORITIES, a);
    }
    if Stuck(s, c, PRIORITIES) {
      var p :| StuckAt(s, c, PRIORITIES, p);
      assert Blocked(s, c, p);
    }
    if p :| Blocked(s, c, p) && (j.None? || (j.value in s.jobs && !s.jobs[j.value].ignore)) {
      assert j.Some? ==> Wanted(s, c, j.value);
      assert StuckAt(s, c, PRIORITIES, p);
    }
  }

  /** GRAB_JOB does not end exactly when workers take turns and there is a priority at which two workers of
      the connection have jobs that are not due, while no job that is wanted is due there or above. */
  lemma {:induction false} GrabHangs(cfg: Config, s: State, x: Phase, c: Id)
    requires Inv(cfg, s, x) && Steady(x)
    ensures TakeHangs(cfg, s, c) <==> cfg.roundRobin && exists p :: Blocked(s, c, p)
    decreases |s.jobs|
  {
    hide Inv, Pick, PickHangs, FreeJob, Fresh, Stuck, Blocked, Discards, Eligible, Leaves, RunsOn;
    AscendingAll();
    PickStuck(cfg, s, x, c, PRIORITIES);
    PickBlocked(cfg, s, x, c, Pick(cfg, s, c, PRIORITIES).1);
    PickSelects(cfg, s, x, c, PRIORITIES);
    PickInv(cfg, s, x, c, PRIORITIES);
    var (s1, j) := Pick(cfg, s, c, PRIORITIES);
    if j.Some? {
      Picked(s, s1, c, j.value);
      Floating(cfg, s1, Taken(x, j), j.value);
      if s.jobs[j.value].ignore {
        SelectDiscards(cfg, s, Taken(x, j), s1, c, j.value);
        FreeJobInv(cfg, s1, Taken(x, j), j.value);
        var s2 := FreeJob(cfg, s1, j.value);
        ForgetInv(cfg, s2, x, j.value);
        FreeJobKeys(cfg, s1, j.value);
        Shrinks(s, s2, j.value);
        GrabHangs(cfg, s2, x, c);
        EligibleDue(s, c, j.value);
        forall p: Priority { DiscardBlocked(s, s2, c, j.value, p); }
      }
    }
  }

  lemma EligibleDue(s: State, c: Id, j: Id)
    requires Eligible(s, c, j)
    ensures j in s.jobs && j !in s.runs && Due(s.jobs[j], s.clock)
  {}

  /** When GRAB_JOB is a step, in terms of what is there before it. */
  lemma GrabEnabled(cfg: Config, s: State, x: Phase, c: Id)
    requires Inv(cfg, s, x) && Steady(x) && Served(s, c)
    ensures TakeHangs(cfg, Awake(s, c), c) <==> cfg.roundRobin && exists p :: Blocked(s, c, p)
    ensures forall ok :: Enabled(cfg, s, Grab(c, ok)) <==> !(cfg.roundRobin && exists p :: Blocked(s, c, p))
  {
    hide Inv, TakeHangs, PeekHangs, Blocked;
    AwakeInv(cfg, s, x, c);
    GrabHangs(cfg, Awake(s, c), x, c);
    forall p: Priority { AwakeBlocked(s, c, p); }
  }

  lemma AwakeBlocked(s: State, c: Id, p: Priority)
    ensures Blocked(Awake(s, c), c, p) <==> Blocked(s, c, p)
  {
    hide Clogged;
    SameClogged(s, Awake(s, c), c, p);
    assert forall a :: Wanted(Awake(s, c), c, a) <==> Wanted(s, c, a);
    hide Wanted;
  }

  // PRE_SLEEP

  /** The job looked at is wanted from now on, and nothing else changes. */
  lemma ExcusedBlocked(s: State, c: Id, j: Id, p: Priority)
    requires Eligible(s, c, j) && s.jobs[j].ignore
    ensures Blocked(Excused(s, j), c, p) <==> Blocked(s, c, p) && Rank(p) < Rank(s.jobs[j].spec.priority)
  {
    hide Clogged, Serves;
    var t := Excused(s, j);
    SameClogged(s, t, c, p);
    forall a: Id { FlagEligible(s, c, j, s.jobs[j].(ignore := false), a); }
    hide Eligible;
    assert Wanted(t, c, j);
    assert forall a :: a != j ==> (Wanted(t, c, a) <==> Wanted(s, c, a));
  }

  /** An ignored job is due below a priority at which two workers have jobs that are not due. */
  ghost predicate Trapped(s: State, c: Id) { exists p, j :: TrappedAt(s, c, p, j) }

  ghost predicate TrappedAt(s: State, c: Id, p: Priority, j: Id) {
    && j in s.jobs && Clogged(s, c, p) && Eligible(s, c, j) && s.jobs[j].ignore
    && Rank(p) < Rank(s.jobs[j].spec.priority)
  }

  /** A round changes nothing about the jobs that are not due. */
  lemma RoundDelays(cfg: Config, s: State, c: Id, j: Id, lost: Id)
    requires Inv(cfg, s, BARE) && Look(s, List(s.conWorkers, c)) == Some(j) && j in s.jobs && s.jobs[j].ignore
    requires Take(cfg, Excused(s, j), c).1 == Some(lost) && Best(Excused(s, j), c, lost)
    requires Thins(Excused(s, j), Rest(cfg, s, c, j))
    requires forall a :: Safe(Excused(s, j), c, lost, a) ==>
               a in Rest(cfg, s, c, j).jobs && a !in Rest(cfg, s, c, j).runs
    ensures SameDelay(s, Rest(cfg, s, c, j))
  {
    hide Inv, Look, Take, Rest, Ahead, Serves;
    var s0, t := Excused(s, j), Rest(cfg, s, c, j);
    LookedIs(cfg, s, c, j);
    forall a | Delayed(s, a) ensures Delayed(t, a) && t.jobs[a].spec == s.jobs[a].spec {
      assert Safe(s0, c, lost, a);
    }
  }

  /** PRE_SLEEP ends unless workers take turns, the job looked at is ignored, and an ignored job is trapped. */
  lemma {:induction false} PeekTraps(cfg: Config, s: State, c: Id)
    requires Inv(cfg, s, BARE) && PeekHangs(cfg, s, c)
    ensures cfg.roundRobin && Trapped(s, c)
    ensures var j := Look(s, List(s.conWorkers, c)); j.Some? && j.value in s.jobs && s.jobs[j.value].ignore
    decreases |s.jobs|
  {
    hide Inv, Look, Take, TakeHangs, Rest, Thins, Best, Safe, Clogged, Eligible, Blocked;
    var j := Look(s, List(s.conWorkers, c)).value;
    LookedIs(cfg, s, c, j);
    var lost := Round(cfg, s, c, j);
    if TakeHangs(cfg, Excused(s, j), c) {
      GrabHangs(cfg, Excused(s, j), BARE, c);
      var p :| Blocked(Excused(s, j), c, p);
      ExcusedBlocked(s, c, j, p);
      BlockedClogs(s, c, p);
      assert TrappedAt(s, c, p, j);
    } else {
      var t := Rest(cfg, s, c, j);
      PeekTraps(cfg, t, c);
      RoundDelays(cfg, s, c, j, lost);
      StillTrapped(s, t, c, j);
    }
  }

  lemma BlockedClogs(s: State, c: Id, p: Priority)
    requires Blocked(s, c, p)
    ensures Clogged(s, c, p)
  {}

  lemma StillTrapped(s: State, t: State, c: Id, j: Id)
    requires j in s.jobs && s.jobs[j].ignore && Thins(Excused(s, j), t) && SameDelay(s, t) && Trapped(t, c)
    ensures Trapped(s, c)
  {
    hide Clogged, Serves;
    var p, a :| TrappedAt(t, c, p, a);
    SameClogged(s, t, c, p);
    ThinEligible(Excused(s, j), t, c, a);
    FlagEligible(s, c, j, s.jobs[j].(ignore := false), a);
    assert TrappedAt(s, c, p, a);
  }

  /** The first round decides: PRE_SLEEP does not end when workers take turns, the job it looks at is ignored,
      and GRAB_JOB is blocked at a priority above it. */
  lemma SleepBlocked(cfg: Config, s: State, x: Phase, c: Id, j: Id, p: Priority)
    requires Inv(cfg, s, x) && Steady(x) && cfg.roundRobin && Look(s, List(s.conWorkers, c)) == Some(j) && j in s.jobs
    requires s.jobs[j].ignore && Blocked(s, c, p) && Rank(p) < Rank(s.jobs[j].spec.priority)
    ensures PeekHangs(cfg, s, c)
  {
    hide Inv, Look, Take, TakeHangs, Rest, Thins, Best, Safe, Eligible, Blocked;
    WeakenInv(cfg, s, x, BARE);
    LookedIs(cfg, s, c, j);
    var lost := Round(cfg, s, c, j);
    ExcusedBlocked(s, c, j, p);
    GrabHangs(cfg, Excused(s, j), BARE, c);
  }

  /** When two workers have jobs at priority `p` that are not due, and nothing is due at that priority or above,
      PRE_SLEEP does not end exactly when workers take turns and the job it looks at is ignored. */
  lemma SleepHangsBelow(cfg: Config, s: State, x: Phase, c: Id, p: Priority)
    requires Inv(cfg, s, x) && Steady(x) && Clogged(s, c, p)
    requires forall a :: Eligible(s, c, a) ==> Rank(p) < Rank(s.jobs[a].spec.priority)
    ensures var j := Look(s, List(s.conWorkers, c));
            PeekHangs(cfg, s, c) <==> cfg.roundRobin && j.Some? && j.value in s.jobs && s.jobs[j.value].ignore
  {
    hide Inv, Look, PeekHangs, Eligible, Clogged;
    WeakenInv(cfg, s, x, BARE);
    var j := Look(s, List(s.conWorkers, c));
    if PeekHangs(cfg, s, c) { PeekTraps(cfg, s, c); }
    if cfg.roundRobin && j.Some? && j.value in s.jobs && s.jobs[j.value].ignore {
      LookedIs(cfg, s, c, j.value);
      SleepBlocked(cfg, s, x, c, j.value, p);
    }
  }

  /** When no job is wanted, PRE_SLEEP does not end exactly when workers take turns and an ignored job is due
      below a priority at which two workers have jobs that are not due. */
  lemma SleepHangs(cfg: Config, s: State, x: Phase, c: Id)
    requires Inv(cfg, s, x) && Steady(x) && forall a :: !Wanted(s, c, a)
    ensures PeekHangs(cfg, s, c) <==> cfg.roundRobin && Trapped(s, c)
  {
    hide Inv, PeekHangs, Wanted, Trapped;
    WeakenInv(cfg, s, x, BARE);
    if PeekHangs(cfg, s, c) { PeekTraps(cfg, s, c); }
    if cfg.roundRobin && Trapped(s, c) { TrappedHangs(cfg, s, c); }
  }

  lemma {:induction false} TrappedHangs(cfg: Config, s: State, c: Id)
    requires Inv(cfg, s, BARE) && cfg.roundRobin && Trapped(s, c) && forall a :: !Wanted(s, c, a)
    ensures PeekHangs(cfg, s, c)
    decreases |s.jobs|
  {
    hide Inv, Look, Take, TakeHangs, Rest, Thins, Best, Safe, Clogged, Blocked, Wanted, Eligible;
    var p, a :| TrappedAt(s, c, p, a);
    LooksAt(cfg, s, c, a);
    var j := Look(s, List(s.conWorkers, c)).value;
    LookedIs(cfg, s, c, j);
    NobodyWants(s, c, j);
    var lost := Round(cfg, s, c, j);
    if Rank(p) < Rank(s.jobs[j].spec.priority) {
      NoneBlocked(s, c, p);
      SleepBlocked(cfg, s, BARE, c, j, p);
    } else {
      var t := Rest(cfg, s, c, j);
      RoundDelays(cfg, s, c, j, lost);
      RoundTraps(cfg, s, t, c, j, lost, p, a);
      TrappedHangs(cfg, t, c);
    }
  }

  lemma NobodyWants(s: State, c: Id, j: Id)
    requires Eligible(s, c, j) && !Wanted(s, c, j)
    ensures s.jobs[j].ignore
  {}

  lemma NoneBlocked(s: State, c: Id, p: Priority)
    requires Clogged(s, c, p) && forall a :: !Wanted(s, c, a)
    ensures Blocked(s, c, p)
  {
    hide Clogged, Wanted;
  }

  /** A job of lower priority stays trapped through a round. */
  lemma RoundTraps(cfg: Config, s: State, t: State, c: Id, j: Id, lost: Id, p: Priority, a: Id)
    requires j in s.jobs && Eligible(s, c, j) && Thins(Excused(s, j), t) && SameDelay(s, t) && lost !in t.jobs
    requires Best(Excused(s, j), c, lost) && (forall b :: !Wanted(s, c, b)) && Clogged(s, c, p)
    requires forall b :: Safe(Excused(s, j), c, lost, b) ==> b in t.jobs && b !in t.runs
    requires Eligible(s, c, a) && s.jobs[a].ignore
    requires Rank(s.jobs[j].spec.priority) <= Rank(p) < Rank(s.jobs[a].spec.priority)
    ensures Trapped(t, c) && forall b :: !Wanted(t, c, b)
  {
    hide Clogged, Ahead;
    var s0 := Excused(s, j);
    SameClogged(s, t, c, p);
    assert lost == j by { assert Wanted(s0, c, lost); assert !Wanted(s, c, lost); }
    assert Safe(s0, c, j, a);
    assert Eligible(t, c, a) && t.jobs[a] == s.jobs[a];
    assert TrappedAt(t, c, p, a);
    forall b | Wanted(t, c, b) ensures Wanted(s, c, b) { ThinEligible(s0, t, c, b); }
  }

  /** PRE_SLEEP is a step whenever no ignored job is trapped, or workers do not take turns. */
  lemma SleepEnabled(cfg: Config, s: State, x: Phase, c: Id)
    requires Inv(cfg, s, x) && Steady(x) && Served(s, c) && !(cfg.roundRobin && Trapped(s, c))
    ensures Enabled(cfg, s, PreSleep(c))
  {
    hide Inv, TakeHangs, PeekHangs, Trapped;
    WeakenInv(cfg, s, x, BARE);
    if PeekHangs(cfg, s, c) { PeekTraps(cfg, s, c); }
  }
}
