/** The scan of the workers of a connection in `gearman_server_job_take`, step by step: when it ends
    and what it comes to. */
module Scans {
  import opened Seqs
  import opened Scheduler
  import opened Selection

  /** The scan is at position `i` of the list, or has found a worker with a due job. */
  datatype Cursor = At(ws: seq<Id>, i: nat) | Hit(ws: seq<Id>, w: Id)

  function Moved(ws: seq<Id>, i: nat): (r: seq<Id>)
    requires i < |ws|
    ensures |r| == |ws|
  {
    ws[..i] + ws[i + 1..] + [ws[i]]
  }

  /** One turn of the loop. In round-robin mode a worker with something queued goes to the end of
      the list, and the scan goes on with its old successor. */
  function Turn(cfg: Config, s: State, p: Priority, k: Cursor): Cursor {
    if k.Hit? || k.i >= |k.ws| then k else
    var w := k.ws[k.i];
    match Classify(s, w, p)
    case Skip => At(k.ws, k.i + 1)
    case Wait =>
      if !cfg.roundRobin || k.i == |k.ws| - 1 then At(k.ws, k.i + 1) else At(Moved(k.ws, k.i), k.i)
    case Ready => Hit(if cfg.roundRobin then Moved(k.ws, k.i) else k.ws, w)
  }

  function Turns(cfg: Config, s: State, p: Priority, k: Cursor, n: nat): Cursor
    decreases n
  {
    if n == 0 then k else Turns(cfg, s, p, Turn(cfg, s, p, k), n - 1)
  }

  predicate Over(k: Cursor) { k.Hit? || k.i >= |k.ws| }

  function Outcome(k: Cursor): (seq<Id>, Option<Id>) {
    (k.ws, if k.Hit? then Some(k.w) else None)
  }

  // What the scan comes to from a position on

  function Rest(cfg: Config, s: State, p: Priority, ws: seq<Id>, i: nat): (seq<Id>, Option<Id>)
    requires i <= |ws|
  {
    var (tail, found) := Scan(cfg, s, ws[i..], p);
    (ws[..i] + tail, found)
  }

  lemma FilterCons(s: State, p: Priority, w: Id, q: seq<Id>)
    ensures Skips(s, [w] + q, p) == (if Classify(s, w, p).Skip? then [w] else []) + Skips(s, q, p)
    ensures Waits(s, [w] + q, p) == (if Classify(s, w, p).Wait? then [w] else []) + Waits(s, q, p)
    ensures FirstReady(s, [w] + q, p) == if Classify(s, w, p).Ready? then 0 else 1 + FirstReady(s, q, p)
  {
    assert ([w] + q)[1..] == q;
  }

  lemma {:induction false} FilterSnoc(s: State, p: Priority, q: seq<Id>, w: Id)
    requires !Classify(s, w, p).Ready?
    ensures Skips(s, q + [w], p) == Skips(s, q, p) + if Classify(s, w, p).Skip? then [w] else []
    ensures Waits(s, q + [w], p) == Waits(s, q, p) + if Classify(s, w, p).Wait? then [w] else []
    ensures FirstReady(s, q + [w], p) == if FirstReady(s, q, p) == |q| then |q| + 1 else FirstReady(s, q, p)
  {
    hide Classify, Skips, Waits, FirstReady;
    if q == [] {
      FilterCons(s, p, w, []);
      assert [] + [w] == [w] + [];
      FilterNil(s, p);
    } else {
      var q' := q[1..];
      FilterSnoc(s, p, q', w);
      FilterCons(s, p, q[0], q');
      FilterCons(s, p, q[0], q' + [w]);
      assert q == [q[0]] + q' && q + [w] == [q[0]] + (q' + [w]);
    }
  }

  lemma FilterNil(s: State, p: Priority)
    ensures Skips(s, [], p) == [] && Waits(s, [], p) == [] && FirstReady(s, [], p) == 0
  {}

  lemma Regroup(w: Id, a: seq<Id>, x: seq<Id>, b: seq<Id>, r: seq<Id>)
    ensures ([w] + a) + x + b + r == [w] + (a + x + b + r)
    ensures a + x + ([w] + b) + r == a + (x + [w]) + b + r
  {}

  lemma Cut(w: Id, q: seq<Id>, r: nat)
    requires r < |q|
    ensures ([w] + q)[..r + 1] == [w] + q[..r] && ([w] + q)[r + 1] == q[r] && ([w] + q)[r + 2..] == q[r + 1..]
    ensures (q + [w])[..r] == q[..r] && (q + [w])[r] == q[r] && (q + [w])[r + 1..] == q[r + 1..] + [w]
  {}

  /** Passing a worker with nothing queued. */
  lemma SkipScan(cfg: Config, s: State, p: Priority, w: Id, q: seq<Id>)
    requires Classify(s, w, p).Skip?
    ensures var (t, found) := Scan(cfg, s, q, p); Scan(cfg, s, [w] + q, p) == ([w] + t, found)
  {
    hide Classify, Skips, Waits, FirstReady;
    FilterCons(s, p, w, q);
    var r := FirstReady(s, q, p);
    if r < |q| {
      var a, b := Skips(s, q[..r], p), Waits(s, q[..r], p);
      FilterCons(s, p, w, q[..r]);
      assert [] + b == b;
      Cut(w, q, r);
      Regroup(w, a, q[r + 1..], b, [q[r]]);
    } else {
      var a, b := Skips(s, q, p), Waits(s, q, p);
      assert [] + b == b;
      assert ([w] + a) + b == [w] + (a + b);
    }
  }

  /** Moving a worker with nothing due to the end, with a worker with a due job still to come. */
  lemma MoveReady(cfg: Config, s: State, p: Priority, w: Id, q: seq<Id>)
    requires cfg.roundRobin && Classify(s, w, p).Wait? && FirstReady(s, q, p) < |q|
    ensures Scan(cfg, s, [w] + q, p) == Scan(cfg, s, q + [w], p)
    ensures FirstReady(s, q + [w], p) == FirstReady(s, q, p)
  {
    hide Classify, Skips, Waits, FirstReady;
    FilterCons(s, p, w, q);
    FilterSnoc(s, p, q, w);
    var r := FirstReady(s, q, p);
    FilterCons(s, p, w, q[..r]);
    Cut(w, q, r);
    Regroup(w, Skips(s, q[..r], p), q[r + 1..], Waits(s, q[..r], p), [q[r]]);
    assert [] + Skips(s, q[..r], p) == Skips(s, q[..r], p);
  }

  /** The same with no due job at all, and nobody else waiting. */
  lemma MoveAlone(cfg: Config, s: State, p: Priority, w: Id, q: seq<Id>)
    requires cfg.roundRobin && Classify(s, w, p).Wait? && FirstReady(s, q, p) == |q| && Waits(s, q, p) == []
    ensures Scan(cfg, s, [w] + q, p) == Scan(cfg, s, q + [w], p)
    ensures FirstReady(s, q + [w], p) == |q| + 1 && Waits(s, q + [w], p) == [w]
  {
    hide Classify, Skips, Waits, FirstReady;
    FilterCons(s, p, w, q);
    FilterSnoc(s, p, q, w);
    assert [] + Skips(s, q, p) == Skips(s, q, p) + [] == Skips(s, q, p) && [w] + [] == [] + [w] == [w];
  }

  // The scan ends

  lemma HeadOf(ws: seq<Id>, i: nat)
    requires i < |ws|
    ensures ws[i..] == [ws[i]] + ws[i + 1..] && ws[..i + 1] == ws[..i] + [ws[i]]
    ensures Moved(ws, i)[i..] == ws[i + 1..] + [ws[i]] && Moved(ws, i)[..i] == ws[..i]
  {}

  /** `n` turns from `k` end the scan as `r` says. */
  ghost predicate Reaches(cfg: Config, s: State, p: Priority, k: Cursor, n: nat, r: (seq<Id>, Option<Id>)) {
    var e := Turns(cfg, s, p, k, n);
    Over(e) && Outcome(e) == r
  }

  lemma OneMore(cfg: Config, s: State, p: Priority, k: Cursor, n: nat, r: (seq<Id>, Option<Id>))
    requires Reaches(cfg, s, p, Turn(cfg, s, p, k), n, r)
    ensures Reaches(cfg, s, p, k, n + 1, r)
  {
    hide Turn;
  }

  /** With the first worker in turn having a due job, the next turn is the last. */
  lemma ReadyNow(cfg: Config, s: State, p: Priority, ws: seq<Id>, i: nat)
    requires i < |ws| && Classify(s, ws[i], p).Ready?
    ensures Reaches(cfg, s, p, At(ws, i), 1, Rest(cfg, s, p, ws, i))
  {
    hide Classify;
    HeadOf(ws, i);
    FilterCons(s, p, ws[i], ws[i + 1..]);
    FilterNil(s, p);
    hide Skips, Waits, FirstReady;
    var q := ws[i..];
    assert q[..0] == [] && q[1..] == ws[i + 1..];
    assert ws[..i] + ([] + ws[i + 1..] + [] + [ws[i]]) == Moved(ws, i);
    assert ws[..i] + q == ws;
    assert Turns(cfg, s, p, At(ws, i), 1) == Turn(cfg, s, p, At(ws, i));
  }

  lemma SkipRest(cfg: Config, s: State, p: Priority, ws: seq<Id>, i: nat)
    requires i < |ws| && Classify(s, ws[i], p).Skip?
    ensures Rest(cfg, s, p, ws, i + 1) == Rest(cfg, s, p, ws, i)
  {
    hide Classify, Scan;
    HeadOf(ws, i);
    SkipScan(cfg, s, p, ws[i], ws[i + 1..]);
    var t := Scan(cfg, s, ws[i + 1..], p).0;
    assert ws[..i] + ([ws[i]] + t) == (ws[..i] + [ws[i]]) + t;
  }

  /** Round robin, with a due job to come. */
  lemma {:induction false} EndsReady(cfg: Config, s: State, p: Priority, ws: seq<Id>, i: nat) returns (n: nat)
    requires cfg.roundRobin && i <= |ws| && FirstReady(s, ws[i..], p) < |ws| - i
    ensures Reaches(cfg, s, p, At(ws, i), n, Rest(cfg, s, p, ws, i))
    decreases FirstReady(s, ws[i..], p)
  {
    hide Classify, Scan, FirstReady, Skips, Waits, Reaches;
    var w, q, r := ws[i], ws[i + 1..], Rest(cfg, s, p, ws, i);
    HeadOf(ws, i);
    FilterCons(s, p, w, q);
    match Classify(s, w, p)
    case Ready =>
      n := 1;
      ReadyNow(cfg, s, p, ws, i);
    case Skip =>
      SkipRest(cfg, s, p, ws, i);
      n := EndsReady(cfg, s, p, ws, i + 1);
      OneMore(cfg, s, p, At(ws, i), n, r);
      n := n + 1;
    case Wait =>
      MoveReady(cfg, s, p, w, q);
      n := EndsReady(cfg, s, p, Moved(ws, i), i);
      OneMore(cfg, s, p, At(ws, i), n, r);
      n := n + 1;
  }

  /** Round robin, with nothing due and at most one worker waiting. */
  lemma {:induction false} EndsIdle(cfg: Config, s: State, p: Priority, ws: seq<Id>, i: nat) returns (n: nat)
    requires cfg.roundRobin && i <= |ws| && FirstReady(s, ws[i..], p) == |ws| - i && |Waits(s, ws[i..], p)| <= 1
    ensures Reaches(cfg, s, p, At(ws, i), n, Rest(cfg, s, p, ws, i))
    decreases if i < |ws| && Classify(s, ws[|ws| - 1], p).Wait? then 0 else 1, |ws| - i
  {
    hide Classify, Scan, FirstReady, Skips, Waits, Reaches;
    var r := Rest(cfg, s, p, ws, i);
    if i == |ws| {
      n := 0;
      NoneLeft(cfg, s, p, ws);
    } else {
      var w, q := ws[i], ws[i + 1..];
      HeadOf(ws, i);
      FilterCons(s, p, w, q);
      if Classify(s, w, p).Skip? {
        SkipRest(cfg, s, p, ws, i);
        if i + 1 < |ws| { n := EndsIdle(cfg, s, p, ws, i + 1); } else { n := 0; NoneLeft(cfg, s, p, ws); }
        OneMore(cfg, s, p, At(ws, i), n, r);
        n := n + 1;
      } else if i == |ws| - 1 {
        n := 1;
        LastWaits(cfg, s, p, ws);
      } else {
        NobodyWaits(s, p, q);
        MoveAlone(cfg, s, p, w, q);
        n := EndsIdle(cfg, s, p, Moved(ws, i), i);
        OneMore(cfg, s, p, At(ws, i), n, r);
        n := n + 1;
      }
    }
  }

  lemma NoneLeft(cfg: Config, s: State, p: Priority, ws: seq<Id>)
    ensures Reaches(cfg, s, p, At(ws, |ws|), 0, Rest(cfg, s, p, ws, |ws|))
  {
    FilterNil(s, p);
    hide Classify, FirstReady, Skips, Waits;
    assert ws[|ws|..] == [] && ws[..|ws|] + ([] + []) == ws;
    assert Scan(cfg, s, [], p).0 == [] + [] == [];
  }

  lemma LastWaits(cfg: Config, s: State, p: Priority, ws: seq<Id>)
    requires cfg.roundRobin && ws != [] && Classify(s, ws[|ws| - 1], p).Wait?
    ensures Reaches(cfg, s, p, At(ws, |ws| - 1), 1, Rest(cfg, s, p, ws, |ws| - 1))
  {
    hide Classify;
    var i := |ws| - 1;
    HeadOf(ws, i);
    FilterCons(s, p, ws[i], []);
    FilterNil(s, p);
    hide Skips, Waits, FirstReady;
    assert ws[i..] == [ws[i]] + [];
    assert ws[..i] + ([] + ([ws[i]] + [])) == ws;
    assert Turns(cfg, s, p, At(ws, i), 1) == Turn(cfg, s, p, At(ws, i));
  }

  /** If the last of a list waited, it would be among those who wait. */
  lemma {:induction false} NobodyWaits(s: State, p: Priority, q: seq<Id>)
    requires Waits(s, q, p) == []
    ensures forall w :: w in q ==> !Classify(s, w, p).Wait?
  {
    hide Classify;
    if q != [] {
      FilterCons(s, p, q[0], q[1..]);
      assert q == [q[0]] + q[1..];
      NobodyWaits(s, p, q[1..]);
    }
  }

  /** Without round robin the list stays as it is, and the scan ends. */
  lemma {:induction false} EndsPlain(cfg: Config, s: State, p: Priority, ws: seq<Id>, i: nat) returns (n: nat)
    requires !cfg.roundRobin && i <= |ws|
    ensures Reaches(cfg, s, p, At(ws, i), n, Rest(cfg, s, p, ws, i))
    decreases |ws| - i
  {
    hide Classify, FirstReady, Skips, Waits, Reaches;
    var r := Rest(cfg, s, p, ws, i);
    if i == |ws| {
      n := 0;
      NoneLeft(cfg, s, p, ws);
    } else if Classify(s, ws[i], p).Ready? {
      n := 1;
      ReadyNow(cfg, s, p, ws, i);
    } else {
      HeadOf(ws, i);
      FilterCons(s, p, ws[i], ws[i + 1..]);
      n := EndsPlain(cfg, s, p, ws, i + 1);
      assert ws[..i] + ws[i..] == ws && ws[..i + 1] + ws[i + 1..] == ws;
      OneMore(cfg, s, p, At(ws, i), n, r);
      n := n + 1;
    }
  }

  // The scan does not end

  ghost predicate Waiting(s: State, p: Priority, ws: seq<Id>, a: nat) {
    a < |ws| && Classify(s, ws[a], p).Wait?
  }

  /** Round robin, nothing due, and two workers still ahead that wait. */
  ghost predicate Stuck(s: State, p: Priority, k: Cursor) {
    && k.At?
    && (forall a :: 0 <= a < |k.ws| ==> !Classify(s, k.ws[a], p).Ready?)
    && exists a, b :: k.i <= a < b && Waiting(s, p, k.ws, a) && Waiting(s, p, k.ws, b)
  }

  lemma MovedAt(ws: seq<Id>, i: nat, j: nat)
    requires i < |ws| && j < |ws|
    ensures Moved(ws, i)[j] == if j < i then ws[j] else if j < |ws| - 1 then ws[j + 1] else ws[i]
  {}

  lemma StuckMoved(s: State, p: Priority, ws: seq<Id>, i: nat)
    requires Stuck(s, p, At(ws, i)) && Waiting(s, p, ws, i)
    ensures Stuck(s, p, At(Moved(ws, i), i))
  {
    hide Classify, Moved;
    var a, b :| i <= a < b && Waiting(s, p, ws, a) && Waiting(s, p, ws, b);
    var c := if a == i then b - 1 else a - 1;
    var r := Moved(ws, i);
    forall j | 0 <= j < |r| ensures !Classify(s, r[j], p).Ready? { MovedAt(ws, i, j); }
    MovedAt(ws, i, c);
    MovedAt(ws, i, |ws| - 1);
    assert Waiting(s, p, Moved(ws, i), c) && Waiting(s, p, Moved(ws, i), |ws| - 1);
  }

  lemma StuckTurn(cfg: Config, s: State, p: Priority, k: Cursor)
    requires cfg.roundRobin && Stuck(s, p, k)
    ensures Stuck(s, p, Turn(cfg, s, p, k)) && !Over(k)
  {
    hide Classify, Moved;
    var a, b :| k.i <= a < b && Waiting(s, p, k.ws, a) && Waiting(s, p, k.ws, b);
    if Waiting(s, p, k.ws, k.i) { StuckMoved(s, p, k.ws, k.i); }
  }

  lemma {:induction false} StuckForever(cfg: Config, s: State, p: Priority, k: Cursor, n: nat)
    requires cfg.roundRobin && Stuck(s, p, k)
    ensures !Over(Turns(cfg, s, p, k, n))
    decreases n
  {
    hide Turn, Stuck;
    StuckTurn(cfg, s, p, k);
    if n > 0 { StuckForever(cfg, s, p, Turn(cfg, s, p, k), n - 1); }
  }

  /** Two who wait are at two positions. */
  lemma {:induction false} TwoWait(s: State, p: Priority, q: seq<Id>)
    requires |Waits(s, q, p)| >= 2
    ensures exists a, b :: 0 <= a < b < |q| && Classify(s, q[a], p).Wait? && Classify(s, q[b], p).Wait?
  {
    hide Classify;
    FilterCons(s, p, q[0], q[1..]);
    assert q == [q[0]] + q[1..];
    if Classify(s, q[0], p).Wait? {
      OneWaits(s, p, q[1..]);
    } else {
      TwoWait(s, p, q[1..]);
      var a, b :| 0 <= a < b < |q[1..]| && Classify(s, q[1..][a], p).Wait? && Classify(s, q[1..][b], p).Wait?;
      assert Classify(s, q[a + 1], p).Wait? && Classify(s, q[b + 1], p).Wait?;
    }
  }

  lemma {:induction false} OneWaits(s: State, p: Priority, q: seq<Id>)
    requires |Waits(s, q, p)| >= 1
    ensures exists b :: 0 <= b < |q| && Classify(s, q[b], p).Wait?
  {
    hide Classify;
    FilterCons(s, p, q[0], q[1..]);
    assert q == [q[0]] + q[1..];
    if !Classify(s, q[0], p).Wait? {
      OneWaits(s, p, q[1..]);
      var b :| 0 <= b < |q[1..]| && Classify(s, q[1..][b], p).Wait?;
      assert Classify(s, q[b + 1], p).Wait?;
    }
  }

  lemma Hangs(cfg: Config, s: State, p: Priority, ws: seq<Id>, n: nat)
    requires ScanHangs(cfg, s, ws, p)
    ensures !Over(Turns(cfg, s, p, At(ws, 0), n))
  {
    hide Classify, Turn, Waits;
    TwoWait(s, p, ws);
    var a, b :| 0 <= a < b < |ws| && Classify(s, ws[a], p).Wait? && Classify(s, ws[b], p).Wait?;
    assert Waiting(s, p, ws, a) && Waiting(s, p, ws, b);
    assert Stuck(s, p, At(ws, 0));
    hide Stuck;
    StuckForever(cfg, s, p, At(ws, 0), n);
  }

  lemma Finishes(cfg: Config, s: State, p: Priority, ws: seq<Id>) returns (n: nat)
    requires !ScanHangs(cfg, s, ws, p)
    ensures Reaches(cfg, s, p, At(ws, 0), n, Scan(cfg, s, ws, p))
  {
    hide Classify, Waits, FirstReady, Reaches, Scan;
    assert ws[0..] == ws && ws[..0] == [];
    assert [] + Scan(cfg, s, ws, p).0 == Scan(cfg, s, ws, p).0;
    if !cfg.roundRobin { n := EndsPlain(cfg, s, p, ws, 0); }
    else if FirstReady(s, ws, p) < |ws| { n := EndsReady(cfg, s, p, ws, 0); }
    else { n := EndsIdle(cfg, s, p, ws, 0); }
  }

  ghost predicate EndsIn(cfg: Config, s: State, p: Priority, ws: seq<Id>, n: nat) {
    Over(Turns(cfg, s, p, At(ws, 0), n))
  }

  /** At a fixed clock the scan ends exactly when some worker has a due job, or at most one worker
      has something queued with nothing of it due, or there is no round robin. When it ends, it
      comes to what `Scan` says. */
  lemma ScanEnds(cfg: Config, s: State, p: Priority, ws: seq<Id>)
    ensures (exists n :: EndsIn(cfg, s, p, ws, n)) <==> !ScanHangs(cfg, s, ws, p)
    ensures !ScanHangs(cfg, s, ws, p) ==> exists n :: Reaches(cfg, s, p, At(ws, 0), n, Scan(cfg, s, ws, p))
  {
    hide ScanHangs, Scan;
    if ScanHangs(cfg, s, ws, p) {
      forall n: nat ensures !EndsIn(cfg, s, p, ws, n) { Hangs(cfg, s, p, ws, n); }
    } else {
      var n := Finishes(cfg, s, p, ws);
      assert EndsIn(cfg, s, p, ws, n);
    }
  }
}
