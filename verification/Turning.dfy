/** What `gearman_server_job_peek` discards when workers take turns. */
module Turning {
  import opened Seqs
  import opened Scheduler
  import opened Invariant
  import opened Records
  import opened Notices
  import opened JobOps
  import opened Selection
  import opened Choices
  import opened Steps
  import opened Scans
  import opened Taking
  import opened Peeking

  ghost predicate Idle(s: State, v: Id) {
    v in s.workers ==> forall p :: NoDue(s, s.workers[v].fn, p)
  }

  /** Worker `w` is in the list, and no worker before it has a due job. */
  ghost predicate Leads(s: State, ws: seq<Id>, w: Id) {
    ws != [] && (ws[0] == w || (Idle(s, ws[0]) && Leads(s, ws[1..], w)))
  }

  lemma {:induction false} LeadsAt(s: State, ws: seq<Id>, n: nat)
    requires n < |ws| && forall i :: 0 <= i < n ==> Idle(s, ws[i])
    ensures Leads(s, ws, ws[n])
  {
    hide Idle;
    if n > 0 {
      forall i | 0 <= i < n - 1 ensures Idle(s, ws[1..][i]) { assert ws[1..][i] == ws[i + 1]; }
      LeadsAt(s, ws[1..], n - 1);
    }
  }

  lemma {:induction false} LeadsStill(s: State, t: State, ws: seq<Id>, w: Id)
    requires Leads(s, ws, w) && forall v :: Idle(s, v) ==> Idle(t, v)
    ensures Leads(t, ws, w)
  {
    hide Idle;
    if ws[0] != w { LeadsStill(s, t, ws[1..], w); }
  }

  lemma {:induction false} LeadsMore(s: State, a: seq<Id>, b: seq<Id>, w: Id)
    requires Leads(s, a, w)
    ensures Leads(s, a + b, w)
  {
    hide Idle;
    assert (a + b)[0] == a[0] && (a + b)[1..] == a[1..] + b;
    if a[0] != w { LeadsMore(s, a[1..], b, w); }
  }

  /** A worker that has nothing queued at a priority keeps the lead of a scan there. */
  lemma {:induction false} LeadsSkips(s: State, ws: seq<Id>, w: Id, p: Priority)
    requires Leads(s, ws, w) && Classify(s, w, p).Skip?
    ensures Leads(s, Skips(s, ws, p), w)
  {
    hide Idle, Classify, Skips, Waits, FirstReady;
    assert ws == [ws[0]] + ws[1..];
    FilterCons(s, p, ws[0], ws[1..]);
    var rest := Skips(s, ws[1..], p);
    if ws[0] == w {
      assert ([w] + rest)[0] == w;
    } else {
      LeadsSkips(s, ws[1..], w, p);
      assert ([ws[0]] + rest)[1..] == rest && [] + rest == rest;
    }
  }

  lemma IdleNotReady(s: State, v: Id, p: Priority)
    requires Idle(s, v)
    ensures !Classify(s, v, p).Ready?
  {
    hide FirstDue;
    if v in s.workers { assert NoDue(s, s.workers[v].fn, p); }
  }

  lemma {:induction false} LeadsCut(s: State, ws: seq<Id>, i: nat, w: Id, p: Priority)
    requires Leads(s, ws, w) && i < |ws| && ws[i] != w && Classify(s, ws[i], p).Ready?
    ensures Leads(s, ws[..i], w)
  {
    hide Idle, Classify;
    if ws[0] != w {
      IdleNotReady(s, ws[0], p);
      assert ws[1..][i - 1] == ws[i] && ws[..i][1..] == ws[1..][..i - 1];
      LeadsCut(s, ws[1..], i - 1, w, p);
    }
  }

  lemma LeadsScan(cfg: Config, s: State, ws: seq<Id>, w: Id, p: Priority)
    requires Leads(s, ws, w) && Classify(s, w, p).Skip?
    ensures Leads(s, Scan(cfg, s, ws, p).0, w)
  {
    hide Leads, Classify, Skips, Waits;
    var i := FirstReady(s, ws, p);
    if cfg.roundRobin {
      if i == |ws| {
        LeadsSkips(s, ws, w, p);
        LeadsMore(s, Skips(s, ws, p), Waits(s, ws, p), w);
      } else {
        LeadsCut(s, ws, i, w, p);
        LeadsSkips(s, ws[..i], w, p);
        var a, b, d := Skips(s, ws[..i], p), ws[i + 1..], Waits(s, ws[..i], p);
        LeadsMore(s, a, b + d + [ws[i]], w);
        assert a + (b + d + [ws[i]]) == a + b + d + [ws[i]];
      }
    }
  }

  lemma {:induction false} LeadsReady(s: State, ws: seq<Id>, w: Id, p: Priority)
    requires Leads(s, ws, w) && Classify(s, w, p).Ready?
    ensures var i := FirstReady(s, ws, p); i < |ws| && ws[i] == w
  {
    hide Idle, Classify;
    if ws[0] != w {
      IdleNotReady(s, ws[0], p);
      LeadsReady(s, ws[1..], w, p);
    }
  }

  /** Nothing is queued for the function of `j` above the priority of `j`. */
  ghost predicate Topmost(s: State, j: Id) {
    j in s.jobs && forall p :: Rank(p) < Rank(s.jobs[j].spec.priority) ==> List(s.fifo, (s.jobs[j].spec.fn, p)) == []
  }

  /** Job `j` is first in its queue, the topmost one of its function, and `w` offers it. */
  ghost predicate Offers(s: State, w: Id, j: Id) {
    && Topmost(s, j) && FirstOf(s, HomeOf(s.jobs[j]), j)
    && w in s.workers && s.workers[w].fn == s.jobs[j].spec.fn
  }

  lemma OfferSkips(s: State, w: Id, j: Id, p: Priority)
    requires Offers(s, w, j) && Rank(p) < Rank(s.jobs[j].spec.priority)
    ensures Classify(s, w, p).Skip?
  {
    hide FirstOf, FirstDue;
  }

  lemma RotatedLeads(cfg: Config, s: State, c: Id, w: Id, j: Id, p: Priority)
    requires Offers(s, w, j) && Leads(s, List(s.conWorkers, c), w) && Rank(p) < Rank(s.jobs[j].spec.priority)
    ensures var t := Rotated(cfg, s, c, p); Offers(t, w, j) && Leads(t, List(t.conWorkers, c), w)
    ensures forall v :: Idle(Rotated(cfg, s, c, p), v) <==> Idle(s, v)
  {
    hide Scan, Leads, FirstDue;
    var t := Rotated(cfg, s, c, p);
    assert forall f, q :: NoDue(t, f, q) <==> NoDue(s, f, q);
    forall v: Id ensures Idle(t, v) <==> Idle(s, v) {}
    OfferSkips(s, w, j, p);
    hide Classify;
    LeadsScan(cfg, s, List(s.conWorkers, c), w, p);
    LeadsStill(s, t, List(t.conWorkers, c), w);
  }

  /** The job that the leading worker offers, when unbeaten, is what a selection selects. */
  lemma {:induction false} PickLeads(cfg: Config, s: State, x: Phase, c: Id, ps: seq<Priority>, w: Id, j: Id)
    requires Inv(cfg, s, x) && Steady(x) && Ascending(ps)
    requires Offers(s, w, j) && Leads(s, List(s.conWorkers, c), w) && Unbeaten(s, c, j) && s.jobs[j].spec.priority in ps
    ensures Pick(cfg, s, c, ps).1 == Some(j)
    decreases |ps|
  {
    hide Inv, FirstDue, Unbeaten, Attach, Skips, Waits, FirstReady, Rotated, Leads, Topmost;
    if ps[0] == s.jobs[j].spec.priority {
      ReadyIff(cfg, s, x, w, ps[0]);
      LeadsReady(s, List(s.conWorkers, c), w, ps[0]);
    } else {
      hide Offers;
      assert ps == [ps[0]] + ps[1..];
      NotReady(cfg, s, x, c, j, ps[0]);
      RotatedInv(cfg, s, x, c, ps[0]);
      RotatedLeads(cfg, s, c, w, j, ps[0]);
      RotatedUnbeaten(cfg, s, c, ps[0], j);
      RotatedJobs(cfg, s, c, ps[0]);
      PickLeads(cfg, Rotated(cfg, s, c, ps[0]), x, c, ps[1..], w, j);
    }
  }

  lemma RotatedUnbeaten(cfg: Config, s: State, c: Id, p: Priority, j: Id)
    requires Unbeaten(s, c, j)
    ensures Unbeaten(Rotated(cfg, s, c, p), c, j)
  {
    hide Scan, Eligible;
    forall a: Id { RotatedEligible(cfg, s, c, p, a); }
  }

  /** A selection above the priority of `j` leaves the worker that offers it in the lead. */
  lemma {:induction false} PickPassesBy(cfg: Config, s: State, x: Phase, c: Id, ps: seq<Priority>, w: Id, j: Id)
    requires Inv(cfg, s, x) && Steady(x) && Ascending(ps)
    requires Offers(s, w, j) && Leads(s, List(s.conWorkers, c), w)
    requires var b := Pick(cfg, s, c, ps).1;
             b.Some? && Rank(s.jobs[b.value].spec.priority) < Rank(s.jobs[j].spec.priority)
    ensures Leads(s, List(Pick(cfg, s, c, ps).0.conWorkers, c), w)
    decreases |ps|
  {
    hide Inv, Scan, FirstDue, Attach, Leads, Idle, Offers, Selects;
    PickSelects(cfg, s, x, c, ps);
    var t := Rotated(cfg, s, c, ps[0]);
    RotatedLeads(cfg, s, c, w, j, ps[0]);
    LeadsStill(t, s, List(t.conWorkers, c), w);
    if Scan(cfg, s, List(s.conWorkers, c), ps[0]).1.None? {
      RotatedInv(cfg, s, x, c, ps[0]);
      PickPassesBy(cfg, t, x, c, ps[1..], w, j);
      LeadsStill(t, s, List(Pick(cfg, s, c, ps).0.conWorkers, c), w);
    } else {
      AttachSelects(cfg, s, x, c, ps[0]);
      var v := Scan(cfg, s, List(s.conWorkers, c), ps[0]).1.value;
      var k := (s.workers[v].fn, ps[0]);
      AttachList(t, k, FirstDue(s.jobs, s.fifo[k], s.clock), v);
    }
  }

  lemma AttachList(s: State, k: Home, i: nat, w: Id)
    requires k in s.fifo && i < |s.fifo[k]|
    ensures Attach(s, k, i, w).conWorkers == s.conWorkers
  {}

  lemma DiscardOffers(cfg: Config, s: State, x: Phase, t: State, w: Id, j: Id, a: Id)
    requires Inv(cfg, s, x) && Offers(s, w, j) && Discards(s, t, a)
    requires Rank(s.jobs[a].spec.priority) < Rank(s.jobs[j].spec.priority)
    ensures Offers(t, w, j)
  {
    hide Inv, FirstOf, FirstDue;
    Elsewhere(cfg, s, x, HomeOf(s.jobs[j]), a);
    DiscardFirst(s, t, a, HomeOf(s.jobs[j]), j);
  }

  lemma DiscardIdle(s: State, t: State, a: Id, v: Id)
    requires Discards(s, t, a) && Idle(s, v)
    ensures Idle(t, v)
  {
    hide NoDue, Leaves;
    if v in s.workers {
      forall p ensures NoDue(t, s.workers[v].fn, p) { DiscardNoDue(s, t, a, s.workers[v].fn, p); }
    }
  }

  /** However the list turns, `take` comes to the job that the leading worker offers once what is
      eligible above it is ignored. */
  lemma {:induction false} TakeLeads(cfg: Config, s: State, x: Phase, c: Id, w: Id, j: Id)
    requires Inv(cfg, s, x) && Steady(x) && Offers(s, w, j) && Leads(s, List(s.conWorkers, c), w)
    requires !s.jobs[j].ignore && Clear(s, c, j)
    ensures Take(cfg, s, c).1 == Some(j)
    decreases |s.jobs|
  {
    hide Inv, Pick, FreeJob, Eligible, Discards, Leaves, Leads, Idle, Clear, Unbeaten;
    OfferedJob(s, w, j);
    hide Offers;
    AscendingAll();
    if Unbeaten(s, c, j) {
      PickLeads(cfg, s, x, c, PRIORITIES, w, j);
    } else {
      Beaten(cfg, s, x, c, j);
      PickInv(cfg, s, x, c, PRIORITIES);
      var (s1, b) := Pick(cfg, s, c, PRIORITIES);
      PickPassesBy(cfg, s, x, c, PRIORITIES, w, j);
      Floating(cfg, s1, Taken(x, b), b.value);
      SelectDiscards(cfg, s, Taken(x, b), s1, c, b.value);
      FreeJobInv(cfg, s1, Taken(x, b), b.value);
      var s2 := FreeJob(cfg, s1, b.value);
      ForgetInv(cfg, s2, x, b.value);
      FreeJobKeys(cfg, s1, b.value);
      Shrinks(s, s2, b.value);
      FreeJobFrame(cfg, s1, b.value);
      DiscardOffers(cfg, s, x, s2, w, j, b.value);
      forall v | Idle(s, v) ensures Idle(s2, v) { DiscardIdle(s, s2, b.value, v); }
      LeadsStill(s, s2, List(s2.conWorkers, c), w);
      DiscardClear(s, s2, c, j, b.value);
      Others(s, s2, b.value, j);
      TakeLeads(cfg, s2, x, c, w, j);
    }
  }

  lemma OfferedJob(s: State, w: Id, j: Id)
    requires Offers(s, w, j)
    ensures j in s.jobs
  {}

  /** The worker `peek` stopped at leads. */
  lemma LookedOffers(s: State, ws: seq<Id>, n: nat, j: Id)
    requires Looked(s, ws, n, j) && Topmost(s, j)
    ensures n < |ws| && Offers(s, ws[n], j) && Leads(s, ws, ws[n])
  {
    hide NoDue, FirstOf;
    forall i | 0 <= i < n ensures Idle(s, ws[i]) {}
    LeadsAt(s, ws, n);
  }

  /** Whether or not workers take turns: when nothing is queued for the function of the ignored job
      above its priority, and what is eligible above it is ignored too, it is the job that is
      discarded. */
  lemma TurnsDiscard(cfg: Config, s: State, x: Phase, c: Id, j: Id)
    requires Inv(cfg, s, x) && Steady(x) && Topmost(s, j) && Clear(s, c, j)
    requires Look(s, List(s.conWorkers, c)) == Some(j) && s.jobs[j].ignore
    ensures Take(cfg, SetJob(s, j, s.jobs[j].(ignore := false)), c).1 == Some(j)
  {
    hide Inv, Look, Looked, Pick, FreeJob, Clear, Offers, Leads;
    var job := s.jobs[j].(ignore := false);
    var t := SetJob(s, j, job);
    FlagInv(cfg, s, x, j, job);
    FlagClear(s, c, j);
    var n := LookFinds(cfg, s, x, List(s.conWorkers, c));
    FlagLooked(s, List(s.conWorkers, c), n, j, j, job);
    LookedOffers(t, List(t.conWorkers, c), n, j);
    TakeLeads(cfg, t, x, c, List(t.conWorkers, c)[n], j);
  }
}
