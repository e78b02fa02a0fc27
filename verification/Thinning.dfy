/** What looking for a job can take away. */
module Thinning {
  import opened Seqs
  import opened Scheduler
  import opened Invariant
  import opened Records
  import opened Notices
  import opened JobOps
  import opened Selection
  import opened Choices
  import opened Steps
  import opened Taking
  import opened Peeking

  lemma {:induction false} FreeClientsOthers(s: State, cls: seq<Id>, cl: Id)
    ensures cl in FreeClients(s, cls).clients ==> cl in s.clients && FreeClients(s, cls).clients[cl] == s.clients[cl]
    ensures cl in s.clients && cl !in cls ==> cl in FreeClients(s, cls).clients
    decreases |cls|
  {
    hide FreeClient;
    if cls != [] {
      FreeClientIs(s, cls[0]);
      FreeClientsOthers(FreeClient(s, cls[0]), cls[1..], cl);
    }
  }

  /** Freeing a job frees the records of its clients and no others. */
  lemma FreeJobClients(cfg: Config, s: State, j: Id, cl: Id)
    ensures var t := FreeJob(cfg, s, j);
            && t.out == s.out && t.nextClient == s.nextClient
            && (cl in t.clients ==> cl in s.clients && t.clients[cl] == s.clients[cl])
            && (cl in s.clients && cl !in List(s.jobClients, j) ==> cl in t.clients)
  {
    hide Untimed, FreeClients, Detach, Unlink, Life;
    FreeClientsOthers(Untimed(s, j), List(s.jobClients, j), cl);
  }

  lemma FreeClientIs(s: State, cl: Id)
    ensures var t := FreeClient(s, cl);
            && t.out == s.out && t.nextClient == s.nextClient
                 && (t.clients == s.clients || t.clients == s.clients - {cl})
            && forall i :: i in t.jobs ==> i in s.jobs && (t.jobs[i] == s.jobs[i] || List(t.jobClients, i) == [])
  {
    hide DelClient;
    DelClientIs(s, cl);
  }

  lemma DelClientIs(s: State, cl: Id)
    ensures cl in s.clients ==>
              var t := DelClient(s, cl);
              t.out == s.out && t.nextClient == s.nextClient && t.clients == s.clients - {cl} && t.jobs == s.jobs
                  && s.clients[cl].job in t.jobClients
  {
    hide Remove, List;
  }

  /** The state only lost jobs and clients; what is left is as it was, except that a job may have begun to
      run. */
  ghost predicate Thins(s: State, t: State) {
    && t.workers == s.workers && t.clock == s.clock && t.out == s.out && t.nextClient == s.nextClient
    && (forall cl :: cl in t.clients ==> cl in s.clients && t.clients[cl] == s.clients[cl])
    && (forall a :: a in t.jobs ==> a in s.jobs && t.jobs[a] == s.jobs[a])
    && (forall a :: a in t.jobs && a in s.runs ==> a in t.runs)
  }

  lemma ThinEligible(s: State, t: State, c: Id, a: Id)
    requires Thins(s, t) && Eligible(t, c, a)
    ensures Eligible(s, c, a) && t.jobs[a] == s.jobs[a]
  {}

  lemma PickThins(cfg: Config, s: State, c: Id)
    requires Inv(cfg, s, BARE)
    ensures var t := Pick(cfg, s, c, PRIORITIES).0; Thins(s, t) && t.clients == s.clients
  {
    hide Inv, Pick, Eligible, Leaves;
    PickSelects(cfg, s, BARE, c, PRIORITIES);
  }

  lemma FreeJobThins(cfg: Config, s: State, x: Phase, j: Id)
    requires Inv(cfg, s, x) && j in s.jobs && s.jobs[j].spec.fn in s.fns
    ensures Thins(s, FreeJob(cfg, s, j))
  {
    hide Inv, FreeJob;
    FreeJobOnly(cfg, s, x, j);
    forall cl: Id { FreeJobClients(cfg, s, j, cl); }
    assert FreeJob(cfg, s, j).out == s.out && FreeJob(cfg, s, j).nextClient == s.nextClient
           by { FreeJobClients(cfg, s, j, 0); }
  }

  lemma ThinsTwice(s: State, t: State, u: State)
    requires Thins(s, t) && Thins(t, u)
    ensures Thins(s, u)
  {}

  lemma {:induction false} TakeThins(cfg: Config, s: State, c: Id)
    requires Inv(cfg, s, BARE)
    ensures Thins(s, Take(cfg, s, c).0)
    decreases |s.jobs|
  {
    hide Inv, Pick, FreeJob, Fresh, Thins;
    var (s1, j) := Pick(cfg, s, c, PRIORITIES);
    PickInv(cfg, s, BARE, c, PRIORITIES);
    PickThins(cfg, s, c);
    if j.Some? && s1.jobs[j.value].ignore {
      var x := Taken(BARE, j);
      FreshRuns(cfg, s1, c, j.value);
      Floating(cfg, s1, x, j.value);
      FreeJobInv(cfg, s1, x, j.value);
      var s2 := FreeJob(cfg, s1, j.value);
      ForgetInv(cfg, s2, BARE, j.value);
      FreeJobKeys(cfg, s1, j.value);
      Shrinks(s, s2, j.value);
      FreeJobThins(cfg, s1, x, j.value);
      TakeThins(cfg, s2, c);
      ThinsTwice(s1, s2, Take(cfg, s2, c).0);
      ThinsTwice(s, s1, Take(cfg, s2, c).0);
    }
  }

  lemma GoneThins(s: State, s0: State, t: State, j: Id)
    requires j in s.jobs && s0 == SetJob(s, j, s.jobs[j].(ignore := false)) && Thins(s0, t) && j !in t.jobs
    ensures Thins(s, t)
  {}

  lemma Real(s: State, c: Id, a: Id)
    requires Eligible(s, c, a)
    ensures a in s.jobs
  {}

  lemma LookedEligible(cfg: Config, s: State, x: Phase, c: Id, n: nat, j: Id)
    requires Inv(cfg, s, x) && Steady(x) && Looked(s, List(s.conWorkers, c), n, j)
    ensures Eligible(s, c, j)
  {
    hide Inv, NoDue, FirstDue;
    ConWorkers(cfg, s, x, c);
    var k := HomeOf(s.jobs[j]);
    FifoJob(cfg, s, x, k, FirstDue(s.jobs, s.fifo[k], s.clock));
    assert s.workers[List(s.conWorkers, c)[n]].fn == s.jobs[j].spec.fn;
  }

  lemma FlagEligible(s: State, c: Id, j: Id, job: Job, a: Id)
    requires j in s.jobs && job.spec == s.jobs[j].spec
    ensures Eligible(SetJob(s, j, job), c, a) <==> Eligible(s, c, a)
  {}

  // What stays

  /** A job that waits, other than `j`, and that the search for `j` has no reason to discard: it is not due,
      not for this connection, not ignored, or of lower priority. */
  ghost predicate Safe(s: State, c: Id, j: Id, a: Id) {
    && j in s.jobs && a in s.jobs && a !in s.runs && a != j
    && (Eligible(s, c, a) && s.jobs[a].ignore ==> Rank(s.jobs[j].spec.priority) < Rank(s.jobs[a].spec.priority))
  }

  /** `take` leaves waiting every job that it has no reason to discard. */
  lemma {:induction false} TakeSpares(cfg: Config, s: State, c: Id, a: Id)
    requires Inv(cfg, s, BARE) && Take(cfg, s, c).1.Some? && Safe(s, c, Take(cfg, s, c).1.value, a)
    ensures var t := Take(cfg, s, c).0; a in t.jobs && a !in t.runs
    decreases |s.jobs|
  {
    hide Inv, Pick, FreeJob, Fresh, Eligible, Discards, Ahead, RunsOn, Best;
    var (s1, j) := Pick(cfg, s, c, PRIORITIES);
    PickInv(cfg, s, BARE, c, PRIORITIES);
    PickBest(cfg, s, BARE, c);
    PickSelects(cfg, s, BARE, c, PRIORITIES);
    Picked(s, s1, c, j.value);
    if s.jobs[j.value].ignore {
      var x := Taken(BARE, j);
      FreshRuns(cfg, s1, c, j.value);
      Floating(cfg, s1, x, j.value);
      SelectDiscards(cfg, s, x, s1, c, j.value);
      FreeJobInv(cfg, s1, x, j.value);
      var s2 := FreeJob(cfg, s1, j.value);
      ForgetInv(cfg, s2, BARE, j.value);
      FreeJobKeys(cfg, s1, j.value);
      Shrinks(s, s2, j.value);
      var t := Take(cfg, s2, c).1;
      TakeBest(cfg, s2, BARE, c);
      SafeStill(cfg, s, s2, c, j.value, t.value, a);
      TakeSpares(cfg, s2, c, a);
    }
  }

  lemma SafeStill(cfg: Config, s: State, t: State, c: Id, j: Id, best: Id, a: Id)
    requires Inv(cfg, s, BARE) && Discards(s, t, j) && Eligible(s, c, j) && s.jobs[j].ignore && Best(t, c, best)
    requires Safe(s, c, best, a) && forall b :: Eligible(s, c, b) ==> !Ahead(s, b, j)
    ensures Safe(t, c, best, a)
  {
    hide Inv, Leaves, Serves, Before;
    DiscardEligible(s, t, c, j, best);
    DiscardEligible(s, t, c, j, a);
    assert !Ahead(s, best, j);
  }

  // A round of peek

  lemma LookedIs(cfg: Config, s: State, c: Id, j: Id)
    requires Inv(cfg, s, BARE) && Look(s, List(s.conWorkers, c)) == Some(j)
    ensures j in s.jobs && Eligible(s, c, j)
  {
    hide Inv, Look, Looked, Eligible;
    var n := LookFinds(cfg, s, BARE, List(s.conWorkers, c));
    LookedJob(s, List(s.conWorkers, c), n, j);
    LookedEligible(cfg, s, BARE, c, n, j);
  }

  /** While a job is due, there is one to look at. */
  lemma LooksAt(cfg: Config, s: State, c: Id, a: Id)
    requires Inv(cfg, s, BARE) && Eligible(s, c, a)
    ensures Look(s, List(s.conWorkers, c)).Some?
  {
    hide Inv, Look;
    var w :| w in s.workers && s.workers[w].con == c && s.workers[w].fn == s.jobs[a].spec.fn;
    Queued(cfg, s, BARE, a);
    if Look(s, List(s.conWorkers, c)).None? { NothingDue(cfg, s, BARE, c, w, HomeOf(s.jobs[a]), a); }
  }

  /** The job that is looked at is no longer ignored. */
  function Excused(s: State, j: Id): State
    requires j in s.jobs
  {
    SetJob(s, j, s.jobs[j].(ignore := false))
  }

  /** What a round of `peek` that comes upon an ignored job makes of the state. */
  function Rest(cfg: Config, s: State, c: Id, j: Id): State
    requires j in s.jobs && Take(cfg, Excused(s, j), c).1.Some?
  {
    var (t, lost) := Take(cfg, Excused(s, j), c);
    FreeJob(cfg, t, lost.value)
  }

  /** The job that goes in such a round is the best of the wanted, the one looked at included; the rest
      is thinner, and the jobs that there is no reason to discard wait as before. */
  lemma Round(cfg: Config, s: State, c: Id, j: Id) returns (lost: Id)
    requires Inv(cfg, s, BARE) && Look(s, List(s.conWorkers, c)) == Some(j) && j in s.jobs && s.jobs[j].ignore
    ensures Inv(cfg, Excused(s, j), BARE) && Take(cfg, Excused(s, j), c).1 == Some(lost) && Best(Excused(s, j), c, lost)
    ensures var t := Rest(cfg, s, c, j);
            && Inv(cfg, t, BARE) && |t.jobs| < |s.jobs| && lost !in t.jobs && Thins(Excused(s, j), t)
            && Peek(cfg, s, c) == Peek(cfg, t, c)
            && (PeekHangs(cfg, s, c) <==> TakeHangs(cfg, Excused(s, j), c) || PeekHangs(cfg, t, c))
    ensures forall a :: Safe(Excused(s, j), c, lost, a) ==>
              a in Rest(cfg, s, c, j).jobs && a !in Rest(cfg, s, c, j).runs
  {
    hide Inv, Look, Take, FreeJob, Fresh, Thins, Best, Safe, TakeHangs, Looked;
    var s0 := Excused(s, j);
    FlagInv(cfg, s, BARE, j, s.jobs[j].(ignore := false));
    lost := RoundTakes(cfg, s, c, j);
    var s1, x := Take(cfg, s0, c).0, Taken(BARE, Some(lost));
    TakeInv(cfg, s0, BARE, c);
    TakeThins(cfg, s0, c);
    FreshRuns(cfg, s1, c, lost);
    Floating(cfg, s1, x, lost);
    var t := FreeJob(cfg, s1, lost);
    FreeJobThins(cfg, s1, x, lost);
    FreeJobInv(cfg, s1, x, lost);
    ForgetInv(cfg, t, BARE, lost);
    FreeJobKeys(cfg, s1, lost);
    Shrinks(s, t, lost);
    ThinsTwice(s0, s1, t);
    FreeJobOnly(cfg, s1, x, lost);
    forall a | Safe(s0, c, lost, a) ensures a in t.jobs && a !in t.runs {
      TakeSpares(cfg, s0, c, a);
      NotItself(s0, c, lost, a);
    }
  }

  lemma NotItself(s: State, c: Id, j: Id, a: Id)
    requires Safe(s, c, j, a)
    ensures a != j
  {}

  lemma RoundTakes(cfg: Config, s: State, c: Id, j: Id) returns (lost: Id)
    requires Inv(cfg, s, BARE) && Look(s, List(s.conWorkers, c)) == Some(j) && j in s.jobs && s.jobs[j].ignore
    requires Inv(cfg, Excused(s, j), BARE)
    ensures Take(cfg, Excused(s, j), c).1 == Some(lost) && Best(Excused(s, j), c, lost) && Eligible(s, c, j)
  {
    hide Inv, Look, Looked, Take, Eligible, Best;
    var n := LookFinds(cfg, s, BARE, List(s.conWorkers, c));
    LookedEligible(cfg, s, BARE, c, n, j);
    FlagEligible(s, c, j, s.jobs[j].(ignore := false), j);
    TakeBest(cfg, Excused(s, j), BARE, c);
    assert Wanted(Excused(s, j), c, j);
    lost := Take(cfg, Excused(s, j), c).1.value;
  }
}
