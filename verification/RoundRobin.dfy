/** Round robin: how long a worker waits for its turn. */
module RoundRobin {
  import opened Seqs
  import opened Scheduler
  import opened Selection
  import opened Scans
  import opened Taking

  /** At each priority a worker of the list has nothing queued or something due. */
  ghost predicate NoneWait(s: State, ws: seq<Id>) {
    forall w, p :: w in ws ==> !Classify(s, w, p).Wait?
  }

  /** `p` is the highest priority at which a worker of the list has a due job, and `w` is one. */
  ghost predicate OnTop(s: State, ws: seq<Id>, w: Id, p: Priority) {
    && w in ws && Classify(s, w, p).Ready?
    && forall v, q :: v in ws && Rank(q) < Rank(p) ==> !Classify(s, v, q).Ready?
  }

  lemma {:induction false} AllSkip(s: State, p: Priority, ws: seq<Id>)
    requires forall w :: w in ws ==> Classify(s, w, p).Skip?
    ensures Skips(s, ws, p) == ws && Waits(s, ws, p) == [] && FirstReady(s, ws, p) == |ws|
  {
    if ws == [] {
      FilterNil(s, p);
    } else {
      hide Classify, Skips, Waits, FirstReady;
      assert ws == [ws[0]] + ws[1..];
      AllSkip(s, p, ws[1..]);
      FilterCons(s, p, ws[0], ws[1..]);
    }
  }

  /** A scan that finds nobody leaves the list as it is. */
  lemma Passes(cfg: Config, s: State, p: Priority, ws: seq<Id>)
    requires NoneWait(s, ws) && forall w :: w in ws ==> !Classify(s, w, p).Ready?
    ensures Scan(cfg, s, ws, p) == (ws, None)
  {
    hide Classify, Skips, Waits, FirstReady;
    AllSkip(s, p, ws);
    assert ws + [] == ws;
  }

  /** A scan that finds a worker moves it, and nothing else, to the end. */
  lemma Moves(cfg: Config, s: State, p: Priority, ws: seq<Id>) returns (i: nat)
    requires cfg.roundRobin && NoneWait(s, ws) && exists w :: w in ws && Classify(s, w, p).Ready?
    ensures i < |ws| && Scan(cfg, s, ws, p) == (Moved(ws, i), Some(ws[i]))
    ensures Classify(s, ws[i], p).Ready? && forall k :: 0 <= k < |ws| && Classify(s, ws[k], p).Ready? ==> i <= k
  {
    hide Classify, Skips, Waits;
    i := FirstReady(s, ws, p);
    assert forall k :: 0 <= k < |ws| ==> ws[k] in ws;
    AllSkip(s, p, ws[..i]);
    assert ws[..i] + ws[i + 1..] + [] + [ws[i]] == Moved(ws, i);
  }

  /** The worker the next selection is made for. */
  ghost predicate ChosenFor(cfg: Config, s: State, c: Id, ps: seq<Priority>, w: Id) {
    var (t, j) := Pick(cfg, s, c, ps);
    j.Some? && j.value in t.runs && t.runs[j.value] == w
  }

  lemma SameClass(cfg: Config, s: State, c: Id, p: Priority)
    ensures forall w, q :: Classify(Rotated(cfg, s, c, p), w, q) == Classify(s, w, q)
  {
    hide Scan, FirstDue;
  }

  lemma Attached(s: State, k: Home, i: nat, w: Id)
    requires k in s.fifo && i < |s.fifo[k]| && k.0 in s.fns
    ensures var t := Attach(s, k, i, w); t.runs == s.runs[s.fifo[k][i] := w] && t.conWorkers == s.conWorkers
  {}

  /** The selection was for the worker at position `i` of the list, which went to its end. */
  ghost predicate Turned(cfg: Config, s: State, c: Id, ps: seq<Priority>, ws: seq<Id>, i: nat) {
    i < |ws| && List(Pick(cfg, s, c, ps).0.conWorkers, c) == Moved(ws, i) && ChosenFor(cfg, s, c, ps, ws[i])
  }

  lemma ReadyFifo(s: State, w: Id, p: Priority)
    requires Classify(s, w, p).Ready?
    ensures w in s.workers && var k := (s.workers[w].fn, p);
              k.0 in s.fns && k in s.fifo && FirstDue(s.jobs, s.fifo[k], s.clock) < |s.fifo[k]|
  {}

  lemma PickNow(cfg: Config, s: State, c: Id, ps: seq<Priority>, i: nat)
    requires ps != [] && i < |List(s.conWorkers, c)| && Classify(s, List(s.conWorkers, c)[i], ps[0]).Ready?
    requires Scan(cfg, s, List(s.conWorkers, c), ps[0]) ==
               (Moved(List(s.conWorkers, c), i), Some(List(s.conWorkers, c)[i]))
    ensures Turned(cfg, s, c, ps, List(s.conWorkers, c), i)
  {
    hide Classify, Scan, FirstDue, Moved, Attach;
    var w := List(s.conWorkers, c)[i];
    ReadyFifo(s, w, ps[0]);
    var k := (s.workers[w].fn, ps[0]);
    Attached(Rotated(cfg, s, c, ps[0]), k, FirstDue(s.jobs, s.fifo[k], s.clock), w);
  }

  lemma PickLater(cfg: Config, s: State, c: Id, ps: seq<Priority>, i: nat)
    requires ps != [] && Scan(cfg, s, List(s.conWorkers, c), ps[0]) == (List(s.conWorkers, c), None)
    requires Turned(cfg, Rotated(cfg, s, c, ps[0]), c, ps[1..], List(s.conWorkers, c), i)
    ensures Turned(cfg, s, c, ps, List(s.conWorkers, c), i)
  {
    hide Scan, Rotated, Attach;
  }

  /** A selection is for the first worker with a due job at the top priority, which goes to the end
      of the list; with nobody waiting, the others keep their order. */
  lemma {:induction false} Selected(cfg: Config, s: State, c: Id, ps: seq<Priority>, w: Id, p: Priority)
      returns (i: nat)
    requires cfg.roundRobin && Ascending(ps) && p in ps
    requires var ws := List(s.conWorkers, c); NoneWait(s, ws) && OnTop(s, ws, w, p)
    ensures var ws := List(s.conWorkers, c);
            Turned(cfg, s, c, ps, ws, i) && forall k :: 0 <= k < |ws| && ws[k] == w ==> i <= k
    decreases |ps|
  {
    hide Classify, Scan, Moved, Turned;
    var ws := List(s.conWorkers, c);
    if ps[0] == p {
      i := Moves(cfg, s, p, ws);
      PickNow(cfg, s, c, ps, i);
    } else {
      assert ps == [ps[0]] + ps[1..];
      assert Rank(ps[0]) < Rank(p);
      Passes(cfg, s, ps[0], ws);
      SameClass(cfg, s, c, ps[0]);
      i := Selected(cfg, Rotated(cfg, s, c, ps[0]), c, ps[1..], w, p);
      PickLater(cfg, s, c, ps, i);
    }
  }

  /** Selections in a row: the list of the connection is the one the last selection left. */
  ghost predicate InARow(cfg: Config, ss: seq<State>, c: Id) {
    forall k :: 0 <= k < |ss| - 1 ==>
      List(ss[k + 1].conWorkers, c) == List(Pick(cfg, ss[k], c, PRIORITIES).0.conWorkers, c)
  }

  ghost predicate Pressing(s: State, c: Id, w: Id) {
    var ws := List(s.conWorkers, c);
    NoneWait(s, ws) && exists p :: OnTop(s, ws, w, p)
  }

  /** A worker that has a job at the top priority throughout has its turn within as many selections
      as there are workers up to its place in the list. */
  lemma {:induction false} HasTurn(cfg: Config, ss: seq<State>, c: Id, w: Id, m: nat) returns (k: nat)
    requires cfg.roundRobin && InARow(cfg, ss, c) && m < |ss|
    requires m < |List(ss[0].conWorkers, c)| && List(ss[0].conWorkers, c)[m] == w
    requires forall k :: 0 <= k < |ss| ==> Pressing(ss[k], c, w)
    ensures k <= m && ChosenFor(cfg, ss[k], c, PRIORITIES, w)
    decreases m
  {
    hide Pick, OnTop, NoneWait, ChosenFor;
    var s := ss[0];
    var ws := List(s.conWorkers, c);
    assert Pressing(s, c, w);
    var p :| OnTop(s, ws, w, p);
    assert p == High || p == Normal || p == Low;
    assert PRIORITIES[0] == High && PRIORITIES[1] == Normal && PRIORITIES[2] == Low;
    var i := Selected(cfg, s, c, PRIORITIES, w, p);
    if i == m {
      k := 0;
    } else {
      MovedAt(ws, i, m - 1);
      k := HasTurn(cfg, ss[1..], c, w, m - 1);
      k := k + 1;
    }
  }

  /** Bounded waiting: within as many selections as the connection has workers. */
  lemma BoundedWaiting(cfg: Config, ss: seq<State>, c: Id, w: Id)
    requires cfg.roundRobin && InARow(cfg, ss, c) && ss != []
    requires |ss| == |List(ss[0].conWorkers, c)| && w in List(ss[0].conWorkers, c)
    requires forall k :: 0 <= k < |ss| ==> Pressing(ss[k], c, w)
    ensures exists k :: 0 <= k < |ss| && ChosenFor(cfg, ss[k], c, PRIORITIES, w)
  {
    hide InARow, Pressing, ChosenFor;
    var ws := List(ss[0].conWorkers, c);
    var m :| 0 <= m < |ws| && ws[m] == w;
    var k := HasTurn(cfg, ss, c, w, m);
  }
}
