/** Packets between an IO thread, which reads them, and the processing thread, which runs them as commands. */
module PacketFlow {
  import opened Seqs
  import opened ConThreads
  import opened ConSafety

  /** A connection with packets that were read is on the processing list of its thread, or its thread is about
      to put it there, or the processing thread is at it, unless it was cleaned up. */
  lemma ReadIsListed(w: World, c: Con)
    requires Reached(w) && c in w.cons && w.cons[c].packets > 0 && !w.cons[c].removed
    ensures var t := w.cons[c].thread;
            t < |w.io| && (c in List(w.procQ, t) || Enlists(w.io[t], c) || Drains(w.proc, c))
  {
    hide Inv;
    ReachedInv(w);
    ConSafety.Con(w, c);
    Flagged(w, c);
  }

  // What is read is what is run

  /** The step puts a packet of `c` where the processing thread finds it. */
  predicate Adds(w: World, a: Act, c: Con)
    requires Enabled(w, a)
  {
    a.Next? && w.io[a.t] == Packet(c)
  }

  /** With the step the processing thread begins to run a command of `c`. */
  predicate Begins(w: World, a: Act, c: Con)
    requires Enabled(w, a)
  {
    a.Proc? && !w.proc.Command? && var pc := Step(w, a).proc; pc.Command? && pc.con == c
  }

  function Held0(w: World, c: Con): nat { if c in w.cons then w.cons[c].packets else 0 }

  function One(b: bool): nat { if b then 1 else 0 }

  lemma SameHeld(w: World, v: World, d: Con, f: Flags, c: Con)
    requires d in w.cons && v.cons == w.cons[d := f] && f.packets == w.cons[d].packets
    ensures Held0(v, c) == Held0(w, c)
  {}

  lemma TakeFreedHeld(w: World, t: nat, c: Con)
    requires t < |w.io|
    ensures Held0(TakeFreed(w, t), c) == Held0(w, c)
  {
    hide Lives, Pop, Head, Held0;
    var v, h := TakeFreed(w, t), Head(w.freedQ, t);
    if h.None? || h.value !in w.cons {
      SameCons(w, v, c);
    } else {
      SameHeld(w, v, h.value, w.cons[h.value].(freedList := false), c);
    }
  }

  lemma TakeIoHeld(w: World, t: nat, c: Con)
    requires t < |w.io|
    ensures Held0(TakeIo(w, t), c) == Held0(w, c)
  {
    hide Lives, Pop, Head, Held0;
    var v, h := TakeIo(w, t), Head(w.ioQ, t);
    if h.None? || h.value !in w.cons {
      SameCons(w, v, c);
    } else {
      SameHeld(w, v, h.value, w.cons[h.value].(ioList := false), c);
    }
  }

  lemma TakeProcHeld(w: World, i: nat, c: Con)
    requires w.proc.Scan?
    ensures Held0(TakeProc(w, i), c) == Held0(w, c) && !TakeProc(w, i).proc.Command?
  {
    hide Lives, Pop, Head, Held0;
    var v, h := TakeProc(w, i), Head(w.procQ, i);
    if h.None? || h.value !in w.cons {
      SameCons(w, v, c);
    } else {
      SameHeld(w, v, h.value, w.cons[h.value].(procList := false), c);
    }
  }

  lemma SameCons(w: World, v: World, c: Con)
    requires v.cons == w.cons
    ensures Held0(v, c) == Held0(w, c)
  {}

  lemma OffHeld(w: World, t: nat, d: Con, c: Con)
    requires t < |w.io|
    ensures Held0(TakeOffProc(w, t, d), c) == Held0(w, c) == Held0(TakeOffIo(w, t, d), c)
  {
    hide Lives, Remove, Held0;
    var u, v := TakeOffProc(w, t, d), TakeOffIo(w, t, d);
    if d in w.cons {
      var f := w.cons[d];
      if f.procList { SameHeld(w, u, d, f.(procList := false), c); } else { SameCons(w, u, c); }
      if f.ioList { SameHeld(w, v, d, f.(ioList := false), c); } else { SameCons(w, v, c); }
    } else {
      SameCons(w, u, c);
      SameCons(w, v, c);
    }
  }

  lemma OnHeld(w: World, d: Con, c: Con)
    requires d in w.cons
    ensures Held0(IoAdd(w, d), c) == Held0(w, c) == Held0(FreedAdd(w, d), c)
  {
    hide Lives, PushOn;
  }

  lemma ListHeld(w: World, t: nat, d: Con, b: Back, c: Con)
    requires t < |w.io|
    ensures Held0(MarkDead(w, t, d, b), c) == Held0(w, c) == Held0(AddToProc(w, t, d, b), c)
  {
    hide Lives, PushOn;
  }

  lemma IoAccount(w: World, t: nat, c: Con)
    requires Inv(w) && t < |w.io|
    ensures var v := IoNext(w, t); c in v.cons ==> Held0(v, c) == Held0(w, c) + One(w.io[t] == Packet(c))
  {
    hide Inv, Lives, TakeFreed, TakeIo, TakeOffProc, TakeOffIo, MarkDead, AddToProc, QueuesOk, WakeOk, ProcOk, Releases;
    Here(w, t);
    match w.io[t]
    case Freed => TakeFreedHeld(w, t, c);
    case Unproc(d) => OffHeld(w, t, d, c);
    case Unio(d) => OffHeld(w, t, d, c);
    case Io => TakeIoHeld(w, t, c);
    case Die(d, b) => ListHeld(w, t, d, b, c);
    case Push(d, b) => ListHeld(w, t, d, b, c);
    case _ =>
  }

  lemma PacketHeld(w: World, d: Con, i: nat, sent: bool, c: Con)
    ensures var v := TakePacket(w, d, i, sent); Held0(v, c) + One(v.proc.Command? && v.proc.con == c) == Held0(w, c)
  {
    hide Lives;
  }

  lemma MarkHeld(w: World, d: Con, i: nat, c: Con)
    ensures Held0(MarkRemoved(w, d, i), c) == Held0(w, c) && !MarkRemoved(w, d, i).proc.Command?
  {
    hide Lives;
  }

  lemma ProcAccount(w: World, c: Con)
    requires Inv(w)
    ensures var v := ProcNext(w);
            Held0(v, c) + One(!w.proc.Command? && v.proc.Command? && v.proc.con == c) == Held0(w, c)
  {
    hide Inv, Lives, IoAdd, FreedAdd, TakeProc, TakePacket, MarkRemoved, QueuesOk, WakeOk;
    There(w);
    match w.proc
    case Drain(d, i, sent) => PacketHeld(w, d, i, sent, c);
    case Mark(d, i) => MarkHeld(w, d, i, c);
    case Scan(i) => if i < |w.io| { TakeProcHeld(w, i, c); }
    case Requeue(d, _) => OnHeld(w, d, c);
    case Release(d, _) => OnHeld(w, d, c);
    case _ =>
  }

  lemma StepAccount(w: World, a: Act, c: Con)
    requires Inv(w) && Enabled(w, a) && c in Step(w, a).cons
    ensures Held0(Step(w, a), c) + One(Begins(w, a, c)) == Held0(w, c) + One(Adds(w, a, c))
  {
    hide Inv, IoNext, ProcNext;
    match a
    case Connect(t, d) => ConSafety.Con(w, d);
    case Next(t) => IoAccount(w, t, c);
    case Proc => ProcAccount(w, c);
    case _ =>
  }

  /** Nothing is read from a connection before it is there. */
  lemma NotYet(w: World, a: Act, c: Con)
    requires Inv(w) && Enabled(w, a) && c !in w.cons
    ensures !Adds(w, a, c) && !Begins(w, a, c)
  {
    hide Inv, IoNext, ProcNext;
    if a.Next? { Here(w, a.t); }
    if a.Proc? && !w.proc.Command? { NotBegun(w, c); }
  }

  lemma NotBegun(w: World, c: Con)
    requires Inv(w) && c !in w.cons && !w.proc.Command?
    ensures var pc := ProcNext(w).proc; !(pc.Command? && pc.con == c)
  {
    hide Inv, Pop;
    There(w);
  }

  /** How many packets of `c` were read, and how many commands of `c` were begun. */
  function Reads(w: World, steps: seq<Act>, c: Con): nat
    requires Runs(w, steps)
    decreases |steps|
  {
    if steps == [] then 0 else One(Adds(w, steps[0], c)) + Reads(Step(w, steps[0]), steps[1..], c)
  }

  function Begun(w: World, steps: seq<Act>, c: Con): nat
    requires Runs(w, steps)
    decreases |steps|
  {
    if steps == [] then 0 else One(Begins(w, steps[0], c)) + Begun(Step(w, steps[0]), steps[1..], c)
  }

  /** Over every interleaving, for a connection that is there at the end: as many commands were begun as packets
      were read, but for those that wait. None is lost, and none is run twice. */
  lemma {:induction false} PacketsAccounted(w: World, steps: seq<Act>, c: Con)
    requires Inv(w) && Runs(w, steps) && c in Run(w, steps).cons
    ensures Held0(Run(w, steps), c) + Begun(w, steps, c) == Held0(w, c) + Reads(w, steps, c)
    decreases |steps|
  {
    hide Inv, Step, Enabled, Adds, Begins;
    if steps != [] {
      var v := Step(w, steps[0]);
      StepInv(w, steps[0]);
      PacketsAccounted(v, steps[1..], c);
      if c in v.cons {
        StepAccount(w, steps[0], c);
      } else if c in w.cons {
        Known(w, c);
        Kept(w, steps[0], c);
        StaysDestroyed(v, steps[1..], c);
      } else {
        NotYet(w, steps[0], c);
      }
    }
  }

  lemma Known(w: World, c: Con)
    requires Inv(w) && c in w.cons
    ensures c in w.used
  {
    hide QueuesOk, ProcOk, PcOk, WakeOk, FlagsOk, NoLeak;
    assert ConOk(w, c);
  }

  lemma Kept(w: World, a: Act, c: Con)
    requires Enabled(w, a) && c in w.used
    ensures c in Step(w, a).used
  {
    hide IoNext, ProcNext, IoAdd;
  }

  /** Everything that was read has been run when everybody waits: as many commands were begun on a connection as
      packets were read from it. */
  lemma EveryPacketRuns(n: nat, steps: seq<Act>, c: Con)
    requires Runs(Start(n), steps) && AtRest(Run(Start(n), steps)) && c in Run(Start(n), steps).cons
    ensures Begun(Start(n), steps, c) == Reads(Start(n), steps, c)
  {
    hide Inv, Runs, Run, AtRest, Begun, Reads;
    StartInv(n);
    PacketsAccounted(Start(n), steps, c);
    assert Leads(n, steps, Run(Start(n), steps));
    NothingLeft(Run(Start(n), steps));
  }

  // A connection that dies while its commands run

  /** The processing thread has run a command of `c` and has not left the connection since. */
  predicate HasRun(pc: ProcPc, c: Con) {
    !pc.Wait? && !pc.Scan? && pc.con == c &&
    (pc.Command? || (pc.Drain? && pc.sent) || (pc.Decide? && pc.sent) || pc.Requeue?)
  }

  /** A visit in which a command was run does not clean the connection up: it ends, or, if the connection is
      dead by then, sends it once more round its IO thread. */
  lemma CleanedLater(w: World, a: Act, c: Con)
    requires Inv(w) && Enabled(w, a) && HasRun(w.proc, c)
    ensures var v := Step(w, a);
            HasRun(v.proc, c) || (v.proc.Scan? && c in v.cons && (v.cons[c].dead ==> v.cons[c].ioList))
  {
    hide Inv, IoNext, ProcNext;
    match a
    case Next(t) => IoLeaves(w, t);
    case Proc => VisitEnds(w, c);
    case _ =>
  }

  lemma IoLeaves(w: World, t: nat)
    requires t < |w.io|
    ensures IoNext(w, t).proc == w.proc
  {
    hide Lives, TakeFreed, TakeIo, TakeOffProc, TakeOffIo, AddPacket, MarkDead, AddToProc;
    match w.io[t]
    case Freed => TakesLeave(w, t);
    case Io => TakesLeave(w, t);
    case Unproc(d) => OffLeave(w, t, d);
    case Unio(d) => OffLeave(w, t, d);
    case Packet(d) => OnLeave(w, t, d, ToIdle);
    case Die(d, b) => OnLeave(w, t, d, b);
    case Push(d, b) => OnLeave(w, t, d, b);
    case _ =>
  }

  lemma TakesLeave(w: World, t: nat)
    requires t < |w.io|
    ensures TakeFreed(w, t).proc == w.proc == TakeIo(w, t).proc
  {
    hide Lives, Pop, Head;
  }

  lemma OffLeave(w: World, t: nat, d: Con)
    requires t < |w.io|
    ensures TakeOffProc(w, t, d).proc == w.proc == TakeOffIo(w, t, d).proc
  {
    hide Lives, Remove, List;
  }

  lemma OnLeave(w: World, t: nat, d: Con, b: Back)
    requires t < |w.io|
    ensures AddPacket(w, t, d).proc == w.proc == MarkDead(w, t, d, b).proc && AddToProc(w, t, d, b).proc == w.proc
  {
    hide Lives, PushOn;
  }

  lemma VisitEnds(w: World, c: Con)
    requires Inv(w) && HasRun(w.proc, c)
    ensures var v := ProcNext(w);
            HasRun(v.proc, c) || (v.proc.Scan? && c in v.cons && (v.cons[c].dead ==> v.cons[c].ioList))
  {
    hide Inv, Pop;
    There(w);
  }
}
