/** How the server picks the next job of a connection: `gearman_server_job_take` and
    `gearman_server_job_peek`. */
module Selection {
  import opened Seqs
  import opened Scheduler

  /** What a priority scan makes of a worker: nothing queued; something queued, nothing of it
      due; or a due job. */
  datatype Class = Skip | Wait | Ready

  function Classify(s: State, w: Id, p: Priority): Class {
    if w !in s.workers || s.workers[w].fn !in s.fns || s.fns[s.workers[w].fn].jobCount == 0 then Skip
    else
      var q := List(s.fifo, (s.workers[w].fn, p));
      if q == [] then Skip else if FirstDue(s.jobs, q, s.clock) == |q| then Wait else Ready
  }

  function FirstReady(s: State, ws: seq<Id>, p: Priority): (i: nat)
    ensures i <= |ws|
    ensures forall k :: 0 <= k < i ==> !Classify(s, ws[k], p).Ready?
    ensures i < |ws| ==> Classify(s, ws[i], p).Ready?
  {
    if ws == [] || Classify(s, ws[0], p).Ready? then 0 else 1 + FirstReady(s, ws[1..], p)
  }

  function Skips(s: State, ws: seq<Id>, p: Priority): seq<Id> {
    Filter(w => Classify(s, w, p).Skip?, ws)
  }

  function Waits(s: State, ws: seq<Id>, p: Priority): seq<Id> {
    Filter(w => Classify(s, w, p).Wait?, ws)
  }

  /** What one priority scan comes to when it ends: the worker list it leaves and the worker it
      selects. In round-robin mode the workers it waited on, and then the one it selected, are
      at the end of the list. */
  function Scan(cfg: Config, s: State, ws: seq<Id>, p: Priority): (seq<Id>, Option<Id>) {
    var i := FirstReady(s, ws, p);
    if i == |ws| then (if cfg.roundRobin then Skips(s, ws, p) + Waits(s, ws, p) else ws, None)
    else (if cfg.roundRobin then Skips(s, ws[..i], p) + ws[i + 1..] + Waits(s, ws[..i], p) + [ws[i]] else ws,
          Some(ws[i]))
  }

  /** Exactly when the scan, at a fixed clock, does not end. */
  predicate ScanHangs(cfg: Config, s: State, ws: seq<Id>, p: Priority) {
    cfg.roundRobin && FirstReady(s, ws, p) == |ws| && |Waits(s, ws, p)| >= 2
  }

  const PRIORITIES := [High, Normal, Low]

  function Rotated(cfg: Config, s: State, c: Id, p: Priority): State {
    s.(conWorkers := s.conWorkers[c := Scan(cfg, s, List(s.conWorkers, c), p).0])
  }

  /** The nested scan of `gearman_server_job_take`: the first due job at the highest priority
      that has one is handed to the worker found. */
  function Pick(cfg: Config, s: State, c: Id, ps: seq<Priority>): (r: (State, Option<Id>))
    ensures r.0.jobs == s.jobs && r.0.fns.Keys == s.fns.Keys && r.0.cons == s.cons && r.0.out == s.out
    ensures r.0.nextClient == s.nextClient
    ensures r.1.Some? ==> r.1.value in s.jobs
    decreases |ps|
  {
    if ps == [] then (s, None) else
    var found := Scan(cfg, s, List(s.conWorkers, c), ps[0]).1;
    var s1 := Rotated(cfg, s, c, ps[0]);
    if found.None? then Pick(cfg, s1, c, ps[1..]) else
    var k := (s.workers[found.value].fn, ps[0]);
    var i := FirstDue(s.jobs, s.fifo[k], s.clock);
    (Attach(s1, k, i, found.value), Some(s.fifo[k][i]))
  }

  predicate PickHangs(cfg: Config, s: State, c: Id, ps: seq<Priority>)
    decreases |ps|
  {
    && ps != []
    && var ws := List(s.conWorkers, c);
       ScanHangs(cfg, s, ws, ps[0])
       || (Scan(cfg, s, ws, ps[0]).1.None? && PickHangs(cfg, Rotated(cfg, s, c, ps[0]), c, ps[1..]))
  }

  /** `gearman_server_job_take`: an ignored job that is picked is freed, and the search starts
      over. */
  function Take(cfg: Config, s: State, c: Id): (r: (State, Option<Id>))
    ensures r.0.jobs.Keys <= s.jobs.Keys
    ensures r.1.Some? ==> r.1.value in r.0.jobs
    decreases |s.jobs|
  {
    var (s1, j) := Pick(cfg, s, c, PRIORITIES);
    if j.None? || !s1.jobs[j.value].ignore || s1.jobs[j.value].spec.fn !in s1.fns then (s1, j) else
    var s2 := FreeJob(cfg, s1, j.value);
    FreeJobKeys(cfg, s1, j.value);
    Shrinks(s, s2, j.value);
    Take(cfg, s2, c)
  }

  lemma Shrinks(s: State, t: State, j: Id)
    requires t.jobs.Keys <= s.jobs.Keys && j in s.jobs && j !in t.jobs
    ensures |t.jobs| < |s.jobs|
  {
    var a, b := t.jobs.Keys, s.jobs.Keys;
    Subset(a, b - {j});
    assert |t.jobs| == |a| && |s.jobs| == |b|;
  }

  lemma {:induction false} Subset(a: set<Id>, b: set<Id>)
    requires a <= b
    ensures |a| <= |b|
  {
    if a != {} {
      var x :| x in a;
      Subset(a - {x}, b - {x});
    }
  }

  predicate TakeHangs(cfg: Config, s: State, c: Id)
    decreases |s.jobs|
  {
    || PickHangs(cfg, s, c, PRIORITIES)
    || var (s1, j) := Pick(cfg, s, c, PRIORITIES);
       j.Some? && s1.jobs[j.value].ignore && s1.jobs[j.value].spec.fn in s1.fns
       && var s2 := FreeJob(cfg, s1, j.value);
          FreeJobKeys(cfg, s1, j.value);
          Shrinks(s, s2, j.value);
          TakeHangs(cfg, s2, c)
  }

  /** The first due job of a worker, High before Normal before Low. */
  function LookAt(s: State, w: Id, ps: seq<Priority>): Option<Id> {
    if ps == [] || w !in s.workers then None else
    var q := List(s.fifo, (s.workers[w].fn, ps[0]));
    var i := FirstDue(s.jobs, q, s.clock);
    if i < |q| then Some(q[i]) else LookAt(s, w, ps[1..])
  }

  /** The job `gearman_server_job_peek` looks at: worker by worker. */
  function Look(s: State, ws: seq<Id>): Option<Id> {
    if ws == [] then None else
    var busy := ws[0] in s.workers && s.workers[ws[0]].fn in s.fns && s.fns[s.workers[ws[0]].fn].jobCount != 0;
    var j := if busy then LookAt(s, ws[0], PRIORITIES) else None;
    if j.Some? then j else Look(s, ws[1..])
  }

  /** `gearman_server_job_peek`: an ignored job that is looked at is un-ignored, whatever `take`
      then takes is freed, and the search starts over. */
  function Peek(cfg: Config, s: State, c: Id): (r: (State, Option<Id>))
    ensures r.0.jobs.Keys <= s.jobs.Keys
    decreases |s.jobs|
  {
    var j := Look(s, List(s.conWorkers, c));
    if j.None? || j.value !in s.jobs || !s.jobs[j.value].ignore then (s, j) else
    var (s1, t) := Take(cfg, SetJob(s, j.value, s.jobs[j.value].(ignore := false)), c);
    if t.None? || s1.jobs[t.value].spec.fn !in s1.fns then (s1, j) else
    var s2 := FreeJob(cfg, s1, t.value);
    FreeJobKeys(cfg, s1, t.value);
    Shrinks(s, s2, t.value);
    Peek(cfg, s2, c)
  }

  predicate PeekHangs(cfg: Config, s: State, c: Id)
    decreases |s.jobs|
  {
    var j := Look(s, List(s.conWorkers, c));
    if j.None? || j.value !in s.jobs || !s.jobs[j.value].ignore then false else
    var s0 := SetJob(s, j.value, s.jobs[j.value].(ignore := false));
    var (s1, t) := Take(cfg, s0, c);
    if TakeHangs(cfg, s0, c) then true
    else if t.None? || s1.jobs[t.value].spec.fn !in s1.fns then false
    else
      var s2 := FreeJob(cfg, s1, t.value);
      FreeJobKeys(cfg, s1, t.value);
      Shrinks(s, s2, t.value);
      PeekHangs(cfg, s2, c)
  }
}
