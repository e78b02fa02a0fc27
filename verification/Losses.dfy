/** Exactly when PRE_SLEEP discards a job that somebody wants, on a list of workers that does not turn. */
module Losses {
  import opened Seqs
  import opened Scheduler
  import opened Invariant
  import opened Notices
  import opened JobOps
  import opened Selection
  import opened Choices
  import opened Steps
  import opened Taking
  import opened Peeking
  import opened Thinning

  /** On the list `ws` function `f` is offered before function `g`. */
  ghost predicate OfferedBefore(s: State, ws: seq<Id>, f: Name, g: Name) { exists n :: OfferedAt(s, ws, n, f, g) }

  ghost predicate OfferedAt(s: State, ws: seq<Id>, n: nat, f: Name, g: Name) {
    && n < |ws| && ws[n] in s.workers && s.workers[ws[n]].fn == f
    && forall i :: 0 <= i <= n && ws[i] in s.workers ==> s.workers[ws[i]].fn != g
  }

  /** `peek` comes to job `j` before it comes to job `b`: by worker, then by priority, then by position. */
  ghost predicate Precedes(s: State, ws: seq<Id>, j: Id, b: Id) {
    && j in s.jobs && b in s.jobs
    && var m, n := s.jobs[j].spec, s.jobs[b].spec;
       || OfferedBefore(s, ws, m.fn, n.fn)
       || (m.fn == n.fn && Rank(m.priority) < Rank(n.priority))
       || (HomeOf(s.jobs[j]) == HomeOf(s.jobs[b]) && Before(List(s.fifo, HomeOf(s.jobs[b])), j, b))
  }

  /** An ignored job `j` is looked at before any job that is wanted, one of which, `a`, has a higher priority. */
  ghost predicate SpoiledBy(s: State, c: Id, j: Id, a: Id) {
    && Eligible(s, c, j) && s.jobs[j].ignore && Wanted(s, c, a)
    && Rank(s.jobs[a].spec.priority) < Rank(s.jobs[j].spec.priority)
    && forall b :: Wanted(s, c, b) ==> Precedes(s, List(s.conWorkers, c), j, b)
  }

  ghost predicate Spoiled(s: State, c: Id) { exists j, a :: SpoiledBy(s, c, j, a) }

  // What is looked at comes first

  lemma QueuedDue(cfg: Config, s: State, x: Phase, c: Id, b: Id)
    requires Inv(cfg, s, x) && Steady(x) && Eligible(s, c, b)
    ensures b in s.jobs && !NoDue(s, s.jobs[b].spec.fn, s.jobs[b].spec.priority)
  {
    hide Inv, Serves;
    var w, i := EligibleAt(cfg, s, x, c, b);
  }

  lemma LookedPrecedes(cfg: Config, s: State, x: Phase, c: Id, n: nat, j: Id, b: Id)
    requires Inv(cfg, s, x) && Steady(x) && Looked(s, List(s.conWorkers, c), n, j) && Eligible(s, c, b) && b != j
    ensures Precedes(s, List(s.conWorkers, c), j, b)
  {
    hide Inv, NoDue, FirstOf, Serves, Before;
    var ws := List(s.conWorkers, c);
    QueuedDue(cfg, s, x, c, b);
    var f, g := s.jobs[j].spec.fn, s.jobs[b].spec.fn;
    if f != g {
      assert OfferedAt(s, ws, n, f, g);
    } else if HomeOf(s.jobs[j]) == HomeOf(s.jobs[b]) {
      FirstBefore(cfg, s, x, c, j, b);
    }
  }

  lemma FirstBefore(cfg: Config, s: State, x: Phase, c: Id, j: Id, b: Id)
    requires Inv(cfg, s, x) && Steady(x) && j in s.jobs && FirstOf(s, HomeOf(s.jobs[j]), j)
    requires Eligible(s, c, b) && b != j && HomeOf(s.jobs[j]) == HomeOf(s.jobs[b])
    ensures Before(List(s.fifo, HomeOf(s.jobs[b])), j, b)
  {
    hide Inv, Serves;
    var w, i := EligibleAt(cfg, s, x, c, b);
    var q := List(s.fifo, HomeOf(s.jobs[b]));
    assert q[FirstDue(s.jobs, q, s.clock)] == j && q[i] == b;
  }

  /** Nothing that is due precedes what is looked at. */
  lemma NonePrecedes(cfg: Config, s: State, x: Phase, c: Id, n: nat, j: Id, b: Id)
    requires Inv(cfg, s, x) && Steady(x) && Looked(s, List(s.conWorkers, c), n, j) && Eligible(s, c, b)
    ensures !Precedes(s, List(s.conWorkers, c), b, j)
  {
    hide Inv, NoDue, FirstOf, Serves, Before;
    var ws := List(s.conWorkers, c);
    QueuedDue(cfg, s, x, c, b);
    if HomeOf(s.jobs[j]) == HomeOf(s.jobs[b]) { FirstNotAfter(cfg, s, x, c, j, b); }
  }

  lemma FirstNotAfter(cfg: Config, s: State, x: Phase, c: Id, j: Id, b: Id)
    requires Inv(cfg, s, x) && Steady(x) && j in s.jobs && FirstOf(s, HomeOf(s.jobs[j]), j) && Eligible(s, c, b)
    requires HomeOf(s.jobs[j]) == HomeOf(s.jobs[b])
    ensures !Before(List(s.fifo, HomeOf(s.jobs[j])), b, j)
  {
    hide Inv, Serves;
    Queued(cfg, s, x, b);
  }

  // A round that discards the job looked at

  /** `t` is `s` without job `j` and ignored jobs of no lower priority; what is wanted, and the order, is the
      same. */
  ghost predicate Sheds(s: State, t: State, c: Id, j: Id) {
    && t.workers == s.workers && List(t.conWorkers, c) == List(s.conWorkers, c) && j in s.jobs
    && (forall a :: Eligible(t, c, a) ==> Eligible(s, c, a) && a in t.jobs && a in s.jobs && t.jobs[a] == s.jobs[a])
    && (forall a :: Wanted(s, c, a) ==> Wanted(t, c, a))
    && (forall a :: Lower(s, c, j, a) ==> Eligible(t, c, a))
    && (forall k, a, b :: Before(List(t.fifo, k), a, b) ==> Before(List(s.fifo, k), a, b))
  }

  ghost predicate Lower(s: State, c: Id, j: Id, a: Id) {
    && j in s.jobs && a in s.jobs && Eligible(s, c, a)
    && Rank(s.jobs[j].spec.priority) < Rank(s.jobs[a].spec.priority)
  }

  lemma {:induction false} TakePlain(cfg: Config, s: State, x: Phase, c: Id)
    requires Inv(cfg, s, x) && Steady(x) && Fixed(cfg, List(s.conWorkers, c))
    ensures List(Take(cfg, s, c).0.conWorkers, c) == List(s.conWorkers, c)
    decreases |s.jobs|
  {
    hide Inv, Pick, FreeJob, Fresh;
    PickPlain(cfg, s, c, PRIORITIES);
    PickInv(cfg, s, x, c, PRIORITIES);
    var (s1, j) := Pick(cfg, s, c, PRIORITIES);
    if j.Some? && s1.jobs[j.value].ignore {
      FreshRuns(cfg, s1, c, j.value);
      Floating(cfg, s1, Taken(x, j), j.value);
      FreeJobInv(cfg, s1, Taken(x, j), j.value);
      var s2 := FreeJob(cfg, s1, j.value);
      ForgetInv(cfg, s2, x, j.value);
      FreeJobKeys(cfg, s1, j.value);
      FreeJobFrame(cfg, s1, j.value);
      Shrinks(s, s2, j.value);
      TakePlain(cfg, s2, x, c);
    }
  }

  lemma RoundSheds(cfg: Config, s: State, c: Id, j: Id)
    requires Inv(cfg, s, BARE) && Fixed(cfg, List(s.conWorkers, c))
    requires Look(s, List(s.conWorkers, c)) == Some(j) && j in s.jobs && s.jobs[j].ignore
    requires Take(cfg, Excused(s, j), c).1 == Some(j)
    ensures Sheds(s, Rest(cfg, s, c, j), c, j)
  {
    hide Inv, Look, Take, FreeJob, Thins, Best, Safe, PeekHangs, TakeHangs, Peek, Before, Eligible, Lower, Wanted;
    var s0, t := Excused(s, j), Rest(cfg, s, c, j);
    var lost := Round(cfg, s, c, j);
    RoundOrder(cfg, s, c, j);
    forall a | Eligible(t, c, a) ensures Eligible(s, c, a) && a in t.jobs && a in s.jobs && t.jobs[a] == s.jobs[a] {
      ShedEligible(s, t, c, j, a);
    }
    forall a | Wanted(s, c, a) || Lower(s, c, j, a) ensures Eligible(t, c, a) && (Wanted(s, c, a) ==> Wanted(t, c, a)) {
      ShedKeeps(s, t, c, j, a);
    }
    ShedWorkers(s, t, j);
  }

  lemma ShedWorkers(s: State, t: State, j: Id)
    requires j in s.jobs && Thins(Excused(s, j), t)
    ensures t.workers == s.workers
  {}

  lemma ShedEligible(s: State, t: State, c: Id, j: Id, a: Id)
    requires j in s.jobs && Thins(Excused(s, j), t) && j !in t.jobs && Eligible(t, c, a)
    ensures Eligible(s, c, a) && a in t.jobs && a in s.jobs && t.jobs[a] == s.jobs[a]
  {
    ThinEligible(Excused(s, j), t, c, a);
    FlagEligible(s, c, j, s.jobs[j].(ignore := false), a);
  }

  lemma ShedKeeps(s: State, t: State, c: Id, j: Id, a: Id)
    requires j in s.jobs && s.jobs[j].ignore && Thins(Excused(s, j), t) && j !in t.jobs
    requires Safe(Excused(s, j), c, j, a) ==> a in t.jobs && a !in t.runs
    requires Wanted(s, c, a) || Lower(s, c, j, a)
    ensures Eligible(t, c, a) && (Wanted(s, c, a) ==> Wanted(t, c, a))
  {
    hide Serves;
    FlagEligible(s, c, j, s.jobs[j].(ignore := false), a);
    assert Safe(Excused(s, j), c, j, a);
    SameServes(s, t, c, s.jobs[a].spec.fn);
  }

  lemma SameServes(s: State, t: State, c: Id, f: Name)
    requires t.workers == s.workers
    ensures Serves(t, c, f) <==> Serves(s, c, f)
  {}

  lemma RoundOrder(cfg: Config, s: State, c: Id, j: Id)
    requires Inv(cfg, s, BARE) && Fixed(cfg, List(s.conWorkers, c)) && j in s.jobs && s.jobs[j].ignore
    requires Inv(cfg, Excused(s, j), BARE) && Take(cfg, Excused(s, j), c).1 == Some(j)
    ensures var t := Rest(cfg, s, c, j);
            && List(t.conWorkers, c) == List(s.conWorkers, c)
            && forall k, a, b :: Before(List(t.fifo, k), a, b) ==> Before(List(s.fifo, k), a, b)
  {
    hide Inv, Take, FreeJob, Before, Eligible, Fresh, Accepts, Life;
    var s0 := Excused(s, j);
    TakePlain(cfg, s0, BARE, c);
    TakeKeeps(cfg, s0, BARE, c);
    TakeInv(cfg, s0, BARE, c);
    var s1, x := Take(cfg, s0, c).0, Taken(BARE, Some(j));
    FreshRuns(cfg, s1, c, j);
    Floating(cfg, s1, x, j);
    FreeJobOnly(cfg, s1, x, j);
    FreeJobFrame(cfg, s1, j);
  }

  // Through the rounds

  lemma PrecedesBack(s: State, t: State, c: Id, j: Id, a: Id, b: Id)
    requires Sheds(s, t, c, j) && Eligible(t, c, a) && Eligible(t, c, b) && Precedes(t, List(t.conWorkers, c), a, b)
    ensures Precedes(s, List(s.conWorkers, c), a, b)
  {
    hide Before, Eligible, Wanted, Lower;
    var ws, f, g := List(s.conWorkers, c), t.jobs[a].spec.fn, t.jobs[b].spec.fn;
    if OfferedBefore(t, ws, f, g) {
      var n :| OfferedAt(t, ws, n, f, g);
      assert OfferedAt(s, ws, n, f, g);
    }
  }

  lemma PrecedesOn(cfg: Config, s: State, t: State, c: Id, j: Id, a: Id, b: Id)
    requires Inv(cfg, s, BARE) && Inv(cfg, t, BARE) && Sheds(s, t, c, j) && a != b
    requires Eligible(t, c, a) && Eligible(t, c, b) && Eligible(s, c, a) && Eligible(s, c, b)
    requires Precedes(s, List(s.conWorkers, c), a, b)
    ensures Precedes(t, List(t.conWorkers, c), a, b)
  {
    hide Inv, Before, Serves, Wanted, Lower;
    var ws, f, g := List(s.conWorkers, c), s.jobs[a].spec.fn, s.jobs[b].spec.fn;
    if OfferedBefore(s, ws, f, g) {
      var n :| OfferedAt(s, ws, n, f, g);
      assert OfferedAt(t, ws, n, f, g);
    } else if HomeOf(s.jobs[a]) == HomeOf(s.jobs[b]) {
      var k := HomeOf(s.jobs[b]);
      Queued(cfg, s, BARE, a);
      Queued(cfg, t, BARE, a);
      Queued(cfg, t, BARE, b);
      OneWay(List(s.fifo, k), a, b);
      SomeWay(List(t.fifo, k), a, b);
    }
  }

  lemma OneWay(q: seq<Id>, a: Id, b: Id)
    requires NoDup(q)
    ensures !(Before(q, a, b) && Before(q, b, a))
  {}

  lemma SomeWay(q: seq<Id>, a: Id, b: Id)
    requires a in q && b in q && a != b
    ensures Before(q, a, b) || Before(q, b, a)
  {
    var i, k :| 0 <= i < |q| && 0 <= k < |q| && q[i] == a && q[k] == b;
    assert i < k || k < i;
  }

  lemma ShedsWanted(s: State, t: State, c: Id, j: Id, a: Id)
    requires Sheds(s, t, c, j)
    ensures Wanted(t, c, a) <==> Wanted(s, c, a)
    ensures Wanted(s, c, a) ==> Eligible(s, c, a) && Eligible(t, c, a)
  {
    hide Eligible, Before, Lower;
  }

  lemma SpoiledBack(s: State, t: State, c: Id, j: Id)
    requires Sheds(s, t, c, j) && Spoiled(t, c)
    ensures Spoiled(s, c)
  {
    hide Sheds, Eligible, Wanted, Precedes;
    var i, a :| SpoiledBy(t, c, i, a);
    ShedsJob(s, t, c, j, i);
    ShedsWanted(s, t, c, j, a);
    ShedsJob(s, t, c, j, a);
    forall b | Wanted(s, c, b) ensures Precedes(s, List(s.conWorkers, c), i, b) {
      ShedsWanted(s, t, c, j, b);
      PrecedesBack(s, t, c, j, i, b);
    }
    assert SpoiledBy(s, c, i, a);
  }

  lemma ShedsJob(s: State, t: State, c: Id, j: Id, a: Id)
    requires Sheds(s, t, c, j) && Eligible(t, c, a)
    ensures Eligible(s, c, a) && a in t.jobs && a in s.jobs && t.jobs[a] == s.jobs[a]
  {
    hide Eligible, Before, Lower, Wanted;
  }

  lemma SpoiledOn(cfg: Config, s: State, t: State, c: Id, j: Id)
    requires Inv(cfg, s, BARE) && Inv(cfg, t, BARE) && Sheds(s, t, c, j) && Clear(s, c, j) && Spoiled(s, c)
    ensures Spoiled(t, c)
  {
    hide Inv, Sheds, Eligible, Precedes;
    var i, a :| SpoiledBy(s, c, i, a);
    ShedsWanted(s, t, c, j, a);
    ShedsJob(s, t, c, j, a);
    assert Rank(s.jobs[j].spec.priority) <= Rank(s.jobs[a].spec.priority);
    Real(s, c, i);
    ShedsLower(s, t, c, j, i);
    ShedsJob(s, t, c, j, i);
    forall b | Wanted(t, c, b) ensures Precedes(t, List(t.conWorkers, c), i, b) {
      ShedsWanted(s, t, c, j, b);
      ShedsJob(s, t, c, j, b);
      PrecedesOn(cfg, s, t, c, j, i, b);
    }
    assert SpoiledBy(t, c, i, a);
  }

  lemma ShedsLower(s: State, t: State, c: Id, j: Id, a: Id)
    requires Sheds(s, t, c, j) && Lower(s, c, j, a)
    ensures Eligible(t, c, a)
  {
    hide Eligible, Before, Lower, Wanted;
  }

  /** A job that was wanted is gone after PRE_SLEEP. */
  ghost predicate Loses(cfg: Config, s: State, c: Id) {
    exists a :: Wanted(s, c, a) && a !in Peek(cfg, s, c).0.jobs
  }

  /** The look ends at once when nothing is due, or what it comes upon is wanted; then nothing is spoiled. */
  lemma Unspoiled(cfg: Config, s: State, c: Id)
    requires Inv(cfg, s, BARE)
    requires var j := Look(s, List(s.conWorkers, c)); j.None? || (j.value in s.jobs && !s.jobs[j.value].ignore)
    ensures !Spoiled(s, c)
  {
    hide Inv, Look, Looked, Precedes;
    var j := Look(s, List(s.conWorkers, c));
    if Spoiled(s, c) {
      var i, a :| SpoiledBy(s, c, i, a);
      LooksAt(cfg, s, c, i);
      var n := LookFinds(cfg, s, BARE, List(s.conWorkers, c));
      LookedIs(cfg, s, c, j.value);
      NonePrecedes(cfg, s, BARE, c, n, j.value, i);
      assert false;
    }
  }

  /** A round in which another job than the one looked at goes. */
  lemma WrongRound(cfg: Config, s: State, c: Id, j: Id)
    requires Inv(cfg, s, BARE) && Look(s, List(s.conWorkers, c)) == Some(j) && j in s.jobs && s.jobs[j].ignore
    requires !Clear(s, c, j)
    ensures Loses(cfg, s, c) && Spoiled(s, c)
  {
    hide Inv, Look, Looked, Take, Peek, PeekHangs, TakeHangs, Safe, Thins, Precedes, Serves, Before, Rest;
    var a :| Eligible(s, c, a) && Rank(s.jobs[a].spec.priority) < Rank(s.jobs[j].spec.priority) && !s.jobs[a].ignore;
    LookedIs(cfg, s, c, j);
    var n := LookFinds(cfg, s, BARE, List(s.conWorkers, c));
    forall b | Wanted(s, c, b) ensures Precedes(s, List(s.conWorkers, c), j, b) {
      LookedPrecedes(cfg, s, BARE, c, n, j, b);
    }
    assert SpoiledBy(s, c, j, a);
    var lost := Round(cfg, s, c, j);
    var s0 := Excused(s, j);
    FlagEligible(s, c, j, s.jobs[j].(ignore := false), a);
    FlagEligible(s, c, j, s.jobs[j].(ignore := false), lost);
    assert Wanted(s0, c, a) && Ahead(s0, a, j);
    assert Wanted(s, c, lost);
  }

  /** On a list that does not turn, PRE_SLEEP discards a job that is wanted exactly when an ignored job would be
      looked at before all jobs that are wanted, and one of these has a higher priority. */
  lemma PeekLoses(cfg: Config, s: State, x: Phase, c: Id)
    requires Inv(cfg, s, x) && Steady(x) && Fixed(cfg, List(s.conWorkers, c))
    ensures Loses(cfg, s, c) <==> Spoiled(s, c)
  {
    hide Inv, Peek, Fixed, Spoiled, Loses;
    WeakenInv(cfg, s, x, BARE);
    LosesSpoiled(cfg, s, c);
  }

  lemma {:induction false} LosesSpoiled(cfg: Config, s: State, c: Id)
    requires Inv(cfg, s, BARE) && Fixed(cfg, List(s.conWorkers, c))
    ensures Loses(cfg, s, c) <==> Spoiled(s, c)
    decreases |s.jobs|
  {
    hide Inv, Look, Take, PeekHangs, TakeHangs, Safe, Thins, Best, Rest, Clear, Spoiled, Wanted, Sheds, Fixed;
    var j := Look(s, List(s.conWorkers, c));
    if j.Some? { LookedIs(cfg, s, c, j.value); }
    if j.None? || !s.jobs[j.value].ignore {
      Unspoiled(cfg, s, c);
      NothingLost(cfg, s, c);
    } else if !Clear(s, c, j.value) {
      WrongRound(cfg, s, c, j.value);
    } else {
      RightRound(cfg, s, c, j.value);
      var t := Rest(cfg, s, c, j.value);
      LosesSpoiled(cfg, t, c);
      SameLosses(cfg, s, t, c, j.value);
    }
  }

  lemma NothingLost(cfg: Config, s: State, c: Id)
    requires var j := Look(s, List(s.conWorkers, c)); j.None? || (j.value in s.jobs && !s.jobs[j.value].ignore)
    ensures !Loses(cfg, s, c)
  {
    hide Look, Serves;
  }

  /** A round in which the job looked at goes. */
  lemma RightRound(cfg: Config, s: State, c: Id, j: Id)
    requires Inv(cfg, s, BARE) && Fixed(cfg, List(s.conWorkers, c)) && Clear(s, c, j)
    requires Look(s, List(s.conWorkers, c)) == Some(j) && j in s.jobs && s.jobs[j].ignore
    ensures Take(cfg, Excused(s, j), c).1 == Some(j)
    ensures var t := Rest(cfg, s, c, j);
            && Inv(cfg, t, BARE) && Sheds(s, t, c, j) && Fixed(cfg, List(t.conWorkers, c)) && |t.jobs| < |s.jobs|
            && Peek(cfg, s, c) == Peek(cfg, t, c) && (Spoiled(t, c) <==> Spoiled(s, c))
  {
    hide Inv, Look, Take, Peek, PeekHangs, TakeHangs, Safe, Thins, Best, Rest, Clear, Spoiled, Sheds, Fixed;
    PeekDiscards(cfg, s, BARE, c, j);
    var lost := Round(cfg, s, c, j);
    RoundSheds(cfg, s, c, j);
    var t := Rest(cfg, s, c, j);
    ShedsList(s, t, c, j);
    if Spoiled(t, c) { SpoiledBack(s, t, c, j); }
    if Spoiled(s, c) { SpoiledOn(cfg, s, t, c, j); }
  }

  lemma ShedsList(s: State, t: State, c: Id, j: Id)
    requires Sheds(s, t, c, j)
    ensures List(t.conWorkers, c) == List(s.conWorkers, c)
  {
    hide Eligible, Before, Lower, Wanted;
  }

  lemma SameLosses(cfg: Config, s: State, t: State, c: Id, j: Id)
    requires Sheds(s, t, c, j) && Peek(cfg, s, c) == Peek(cfg, t, c)
    ensures Loses(cfg, t, c) <==> Loses(cfg, s, c)
  {
    hide Sheds, Wanted, Peek;
    forall a: Id { ShedsWanted(s, t, c, j, a); }
  }

  // What a run must not do

  /** Every ignored job that is due has a higher priority than every one that is wanted. */
  ghost predicate AllClear(s: State, c: Id) {
    forall a, j :: Wanted(s, c, a) && Eligible(s, c, j) && s.jobs[j].ignore ==>
      Rank(s.jobs[j].spec.priority) < Rank(s.jobs[a].spec.priority)
  }

  ghost predicate LooksIgnored(s: State, c: Id) {
    var j := Look(s, List(s.conWorkers, c)); j.Some? && j.value in s.jobs && s.jobs[j.value].ignore
  }

  /** PRE_SLEEP is safe: on a list that does not turn, exactly when nothing is spoiled; on one that does, when
      it comes upon no ignored job, or every ignored job goes before what is wanted. */
  ghost predicate Undisturbed(cfg: Config, s: State, c: Id) {
    if Fixed(cfg, List(s.conWorkers, c)) then !Spoiled(s, c) else AllClear(s, c) || !LooksIgnored(s, c)
  }

  lemma ClearUndisturbed(cfg: Config, s: State, c: Id)
    requires AllClear(s, c)
    ensures Undisturbed(cfg, s, c)
  {
    hide Eligible, Precedes, LooksIgnored;
  }

  lemma ThinClear(s: State, t: State, c: Id)
    requires AllClear(s, c) && Thins(s, t)
    ensures AllClear(t, c)
  {
    hide Thins, Eligible;
    forall a | Eligible(t, c, a) ensures Eligible(s, c, a) && a in t.jobs && a in s.jobs && t.jobs[a] == s.jobs[a] {
      ThinEligible(s, t, c, a);
      Real(s, c, a);
      Real(t, c, a);
    }
  }

  /** What a round of `peek` makes `take` remove is the job it looked at, and the next round is safe too. */
  lemma UndisturbedRound(cfg: Config, s: State, c: Id, j: Id)
    requires Inv(cfg, s, BARE) && Undisturbed(cfg, s, c)
    requires Look(s, List(s.conWorkers, c)) == Some(j) && j in s.jobs && s.jobs[j].ignore
    ensures Take(cfg, Excused(s, j), c).1 == Some(j) && Undisturbed(cfg, Rest(cfg, s, c, j), c)
  {
    hide Inv, Look, Take, Peek, Rest, Clear, Spoiled, AllClear, Sheds, Fixed, Loses, PeekHangs, TakeHangs, Thins, Best,
         Safe;
    if Fixed(cfg, List(s.conWorkers, c)) {
      if !Clear(s, c, j) { WrongRound(cfg, s, c, j); }
      RightRound(cfg, s, c, j);
    } else {
      TurningRound(cfg, s, c, j);
      var lost := Round(cfg, s, c, j);
      GoneThins(s, Excused(s, j), Rest(cfg, s, c, j), j);
      ThinClear(s, Rest(cfg, s, c, j), c);
      ClearUndisturbed(cfg, Rest(cfg, s, c, j), c);
    }
  }

  lemma TurningRound(cfg: Config, s: State, c: Id, j: Id)
    requires Inv(cfg, s, BARE) && AllClear(s, c)
    requires Look(s, List(s.conWorkers, c)) == Some(j) && j in s.jobs && s.jobs[j].ignore
    ensures Take(cfg, Excused(s, j), c).1 == Some(j)
  {
    hide Inv, Look, Take, Peek, Rest, PeekHangs, TakeHangs, Thins, Safe, Before, Serves;
    var s0 := Excused(s, j);
    LookedIs(cfg, s, c, j);
    var lost := Round(cfg, s, c, j);
    FlagEligible(s, c, j, s.jobs[j].(ignore := false), j);
    FlagEligible(s, c, j, s.jobs[j].(ignore := false), lost);
    assert Wanted(s0, c, j);
  }
}
