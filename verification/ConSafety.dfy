/** What every interleaving of the IO threads and the processing thread keeps. */
module ConSafety {
  import opened Seqs
  import opened Ownership
  import opened ConThreads

  // Which connections are on which list

  function ProcOf(cons: map<Con, Flags>): map<Con, nat> { map c | c in cons && cons[c].procList :: cons[c].thread }
  function IoOf(cons: map<Con, Flags>): map<Con, nat> { map c | c in cons && cons[c].ioList :: cons[c].thread }
  function FreedOf(cons: map<Con, Flags>): map<Con, nat> { map c | c in cons && cons[c].freedList :: cons[c].thread }

  /** The flags of the connections and the lists of the threads agree. */
  ghost predicate Agree(cons: map<Con, Flags>, procQ: map<nat, seq<Con>>, ioQ: map<nat, seq<Con>>,
                        freedQ: map<nat, seq<Con>>) {
    Owned(ProcOf(cons), procQ) && Owned(IoOf(cons), ioQ) && Owned(FreedOf(cons), freedQ)
  }

  ghost predicate QueuesOk(w: World) { Agree(w.cons, w.procQ, w.ioQ, w.freedQ) }

  // Who holds a connection

  /** An IO thread is about to hand the connection on. */
  predicate HandsOn(pc: IoPc, c: Con) {
    match pc
    case Got(d) => d == c
    case Die(d, _) => d == c
    case AskRemoved(d, _) => d == c
    case AskListed(d, _) => d == c
    case Push(d, _) => d == c
    case _ => false
  }

  /** An IO thread is about to free the connection. */
  predicate Frees(pc: IoPc, c: Con) {
    match pc
    case Check(d) => d == c
    case Unproc(d) => d == c
    case Unio(d) => d == c
    case Gone(d) => d == c
    case _ => false
  }

  /** The processing thread works on the connection. */
  predicate Works(pc: ProcPc, c: Con) { !pc.Wait? && !pc.Scan? && !pc.Release? && pc.con == c }

  predicate Releases(pc: ProcPc, c: Con) { pc.Release? && pc.con == c }

  /** An IO thread is about to put the connection on the processing list, unless it is there. */
  predicate Enlists(pc: IoPc, c: Con) { (pc.AskListed? || pc.Push?) && pc.con == c }

  /** The processing thread takes packets from the connection until there is none. */
  predicate Drains(pc: ProcPc, c: Con) { (pc.Drain? || pc.Command?) && pc.con == c }

  predicate FlagsOk(f: Flags, n: nat) {
    f.thread < n && (f.removed ==> f.dead) && (f.freedList ==> f.removed) && (f.attached ==> !f.dead)
  }

  /** A dead connection is always on a list or in somebody's hands; one with packets that were read is on the
      processing list, or in the hands of somebody who puts it there or runs them; and one whose socket failed
      is dead, or its thread is about to mark it so. */
  predicate NoLeak(f: Flags, c: Con, io: IoPc, proc: ProcPc) {
    && (f.removed ==> f.freedList || Releases(proc, c) || Frees(io, c))
    && (f.dead && !f.removed ==> f.procList || f.ioList || HandsOn(io, c) || Works(proc, c))
    && (f.packets > 0 && !f.removed ==> f.procList || Enlists(io, c) || Drains(proc, c))
    && (!f.attached && !f.dead ==> io.Die? && io.con == c)
  }

  predicate ConOk(w: World, c: Con) {
    c in w.cons ==>
      && c in w.used && FlagsOk(w.cons[c], |w.io|)
      && NoLeak(w.cons[c], c, w.io[w.cons[c].thread], w.proc)
  }

  // What a thread knows of the connection it holds

  predicate Held(w: World, t: nat, c: Con) { c in w.cons && w.cons[c].thread == t }

  predicate PcOk(w: World, t: nat, pc: IoPc) {
    match pc
    case Check(c) => Held(w, t, c) && w.cons[c].removed && w.cons[c].dead && !w.cons[c].freedList
        && !Releases(w.proc, c)
    case Unproc(c) => Held(w, t, c) && w.cons[c].removed && !w.cons[c].freedList && !Releases(w.proc, c)
    case Unio(c) => Held(w, t, c) && w.cons[c].removed && !w.cons[c].freedList && !w.cons[c].procList
        && !Releases(w.proc, c)
    case Gone(c) =>
      Held(w, t, c) && w.cons[c].removed && !w.cons[c].freedList && !w.cons[c].procList && !w.cons[c].ioList
          && !Releases(w.proc, c)
    case Got(c) => Held(w, t, c)
    case Packet(c) => Held(w, t, c) && w.cons[c].attached
    case Die(c, _) => Held(w, t, c) && !w.cons[c].attached
    case AskRemoved(c, _) => Held(w, t, c) && w.cons[c].dead
    case AskListed(c, _) => Held(w, t, c)
    case Push(c, _) => Held(w, t, c) && !w.cons[c].procList
    case _ => true
  }

  predicate ProcOk(w: World) {
    match w.proc
    case Wait => true
    case Scan(_) => true
    case Clean(c, i) => c in w.cons && !w.cons[c].removed && w.cons[c].dead && w.cons[c].thread == i
    case Mark(c, i) => c in w.cons && !w.cons[c].removed && w.cons[c].dead && w.cons[c].thread == i
    case Release(c, i) => c in w.cons && w.cons[c].removed && !w.cons[c].freedList && w.cons[c].thread == i
    case pc => pc.con in w.cons && !w.cons[pc.con].removed && w.cons[pc.con].thread == pc.i
  }

  // Wakeups

  /** The processing thread has still to look at the list of thread `t` in this scan. */
  predicate Ahead(pc: ProcPc, t: nat) { !pc.Wait? && pc.i <= t }

  predicate GoesTo(pc: IoPc, a: Back, b: Back) {
    match pc
    case Die(_, k) => k == a || k == b
    case AskRemoved(_, k) => k == a || k == b
    case AskListed(_, k) => k == a || k == b
    case Push(_, k) => k == a || k == b
    case Signal(k) => k == a || k == b
    case _ => false
  }

  /** The IO thread will look at its to-be-freed list again before it goes back to its event loop. */
  predicate WillFree(pc: IoPc) {
    pc.Freed? || pc.Check? || pc.Unproc? || pc.Unio? || pc.Gone? || GoesTo(pc, ToFreed, ToFreed)
  }

  /** The same for its io list. */
  predicate WillDrain(pc: IoPc) { WillFree(pc) || pc.Io? || pc.Got? || GoesTo(pc, ToFreed, ToIo) }

  predicate WakeOk(w: World, t: nat) {
    t < |w.io| && |w.pipe| == |w.io| && |w.owed| == |w.io| ==>
      && (List(w.procQ, t) != [] ==> w.wakeup || Ahead(w.proc, t) || w.io[t].Signal?)
      && (List(w.ioQ, t) != [] ==> w.pipe[t] || w.owed[t] > 0 || WillDrain(w.io[t]))
      && (List(w.freedQ, t) != [] ==> w.pipe[t] || w.owed[t] > 0 || WillFree(w.io[t]))
  }

  ghost predicate Inv(w: World) {
    && |w.pipe| == |w.io| && |w.owed| == |w.io|
    && QueuesOk(w) && ProcOk(w)
    && (forall c :: ConOk(w, c))
    && (forall t :: 0 <= t < |w.io| ==> PcOk(w, t, w.io[t]))
    && (forall t :: 0 <= t < |w.io| ==> WakeOk(w, t))
  }

  // Lists

  lemma HeadProc(w: World, t: nat)
    requires QueuesOk(w)
    ensures var c := Head(w.procQ, t); c.Some? ==> Held(w, t, c.value) && w.cons[c.value].procList
  {
    if Head(w.procQ, t).Some? { OwnedAt(ProcOf(w.cons), w.procQ, t, 0); }
  }

  lemma HeadIo(w: World, t: nat)
    requires QueuesOk(w)
    ensures var c := Head(w.ioQ, t); c.Some? ==> Held(w, t, c.value) && w.cons[c.value].ioList
  {
    if Head(w.ioQ, t).Some? { OwnedAt(IoOf(w.cons), w.ioQ, t, 0); }
  }

  lemma HeadFreed(w: World, t: nat)
    requires QueuesOk(w)
    ensures var c := Head(w.freedQ, t); c.Some? ==> Held(w, t, c.value) && w.cons[c.value].freedList
  {
    if Head(w.freedQ, t).Some? { OwnedAt(FreedOf(w.cons), w.freedQ, t, 0); }
  }

  /** Changing the flags of a connection, seen from the lists. */
  lemma Reflagged(cons: map<Con, Flags>, c: Con, f: Flags)
    requires c !in cons || f.thread == cons[c].thread
    ensures ProcOf(cons[c := f]) == if f.procList then ProcOf(cons)[c := f.thread] else ProcOf(cons) - {c}
    ensures IoOf(cons[c := f]) == if f.ioList then IoOf(cons)[c := f.thread] else IoOf(cons) - {c}
    ensures FreedOf(cons[c := f]) == if f.freedList then FreedOf(cons)[c := f.thread] else FreedOf(cons) - {c}
  {}

  lemma Unflagged(cons: map<Con, Flags>, c: Con)
    ensures c !in cons || !cons[c].procList ==> ProcOf(cons) - {c} == ProcOf(cons)
    ensures c in cons && cons[c].procList ==> ProcOf(cons)[c := cons[c].thread] == ProcOf(cons)
    ensures c !in cons || !cons[c].ioList ==> IoOf(cons) - {c} == IoOf(cons)
    ensures c in cons && cons[c].ioList ==> IoOf(cons)[c := cons[c].thread] == IoOf(cons)
    ensures c !in cons || !cons[c].freedList ==> FreedOf(cons) - {c} == FreedOf(cons)
    ensures c in cons && cons[c].freedList ==> FreedOf(cons)[c := cons[c].thread] == FreedOf(cons)
  {}

  lemma SameFlags(w: World, c: Con, f: Flags)
    requires QueuesOk(w) && c in w.cons && f.thread == w.cons[c].thread
    requires f.procList == w.cons[c].procList && f.ioList == w.cons[c].ioList && f.freedList == w.cons[c].freedList
    ensures QueuesOk(Set(w, c, f))
  {
    hide Owned;
    Reflagged(w.cons, c, f);
    Unflagged(w.cons, c);
  }

  lemma Popped(owner: map<Con, nat>, lists: map<nat, seq<Con>>, t: nat)
    requires Owned(owner, lists) && Head(lists, t).Some?
    ensures Owned(owner - {Head(lists, t).value}, Pop(lists, t))
  {
    OwnedDelAt(owner, lists, t, 0);
  }

  lemma PopFreed(w: World, t: nat, c: Con)
    requires QueuesOk(w) && Head(w.freedQ, t) == Some(c) && c in w.cons
    ensures QueuesOk(Set(w, c, w.cons[c].(freedList := false)).(freedQ := Pop(w.freedQ, t)))
  {
    hide Owned, Pop;
    Reflagged(w.cons, c, w.cons[c].(freedList := false));
    Unflagged(w.cons, c);
    Popped(FreedOf(w.cons), w.freedQ, t);
  }

  lemma PopIo(w: World, t: nat, c: Con)
    requires QueuesOk(w) && Head(w.ioQ, t) == Some(c) && c in w.cons
    ensures QueuesOk(Set(w, c, w.cons[c].(ioList := false)).(ioQ := Pop(w.ioQ, t)))
  {
    hide Owned, Pop;
    Reflagged(w.cons, c, w.cons[c].(ioList := false));
    Unflagged(w.cons, c);
    Popped(IoOf(w.cons), w.ioQ, t);
  }

  lemma PopProc(w: World, t: nat, c: Con)
    requires QueuesOk(w) && Head(w.procQ, t) == Some(c) && c in w.cons
    ensures QueuesOk(Set(w, c, w.cons[c].(procList := false)).(procQ := Pop(w.procQ, t)))
  {
    hide Owned, Pop;
    Reflagged(w.cons, c, w.cons[c].(procList := false));
    Unflagged(w.cons, c);
    Popped(ProcOf(w.cons), w.procQ, t);
  }

  lemma PushProc(w: World, c: Con)
    requires QueuesOk(w) && c in w.cons && !w.cons[c].procList
    ensures QueuesOk(Set(w, c, w.cons[c].(procList := true)).(procQ := PushOn(w.procQ, w.cons[c].thread, c)))
  {
    hide Owned;
    Reflagged(w.cons, c, w.cons[c].(procList := true));
    Unflagged(w.cons, c);
    OwnedAdd(ProcOf(w.cons), w.procQ, c, w.cons[c].thread);
  }

  lemma PushIo(w: World, c: Con)
    requires QueuesOk(w) && c in w.cons && !w.cons[c].ioList
    ensures QueuesOk(Set(w, c, w.cons[c].(ioList := true)).(ioQ := PushOn(w.ioQ, w.cons[c].thread, c)))
  {
    hide Owned;
    Reflagged(w.cons, c, w.cons[c].(ioList := true));
    Unflagged(w.cons, c);
    OwnedAdd(IoOf(w.cons), w.ioQ, c, w.cons[c].thread);
  }

  lemma PushFreed(w: World, c: Con)
    requires QueuesOk(w) && c in w.cons && !w.cons[c].freedList
    ensures QueuesOk(Set(w, c, w.cons[c].(freedList := true)).(freedQ := PushOn(w.freedQ, w.cons[c].thread, c)))
  {
    hide Owned;
    Reflagged(w.cons, c, w.cons[c].(freedList := true));
    Unflagged(w.cons, c);
    OwnedAdd(FreedOf(w.cons), w.freedQ, c, w.cons[c].thread);
  }

  lemma DelProc(w: World, c: Con)
    requires QueuesOk(w) && c in w.cons && w.cons[c].procList
    ensures var t := w.cons[c].thread;
            QueuesOk(Set(w, c, w.cons[c].(procList := false)).(procQ := w.procQ[t := Remove(List(w.procQ, t), c)]))
  {
    hide Owned, Remove;
    Reflagged(w.cons, c, w.cons[c].(procList := false));
    Unflagged(w.cons, c);
    OwnedDel(ProcOf(w.cons), w.procQ, c);
  }

  lemma DelIo(w: World, c: Con)
    requires QueuesOk(w) && c in w.cons && w.cons[c].ioList
    ensures var t := w.cons[c].thread;
            QueuesOk(Set(w, c, w.cons[c].(ioList := false)).(ioQ := w.ioQ[t := Remove(List(w.ioQ, t), c)]))
  {
    hide Owned, Remove;
    Reflagged(w.cons, c, w.cons[c].(ioList := false));
    Unflagged(w.cons, c);
    OwnedDel(IoOf(w.cons), w.ioQ, c);
  }

  lemma Vanishes(w: World, c: Con)
    requires QueuesOk(w) && c in w.cons && !w.cons[c].procList && !w.cons[c].ioList && !w.cons[c].freedList
    ensures QueuesOk(w.(cons := w.cons - {c}))
  {
    hide Owned;
    assert ProcOf(w.cons - {c}) == ProcOf(w.cons);
    assert IoOf(w.cons - {c}) == IoOf(w.cons);
    assert FreedOf(w.cons - {c}) == FreedOf(w.cons);
  }

  // Steps of an IO thread

  /** The thread holds no connection but `d`. */
  predicate HoldsOnly(pc: IoPc, d: Con) {
    match pc
    case Check(c) => c == d
    case Unproc(c) => c == d
    case Unio(c) => c == d
    case Gone(c) => c == d
    case Got(c) => c == d
    case Packet(c) => c == d
    case Die(c, _) => c == d
    case AskRemoved(c, _) => c == d
    case AskListed(c, _) => c == d
    case Push(c, _) => c == d
    case _ => true
  }

  /** The lists of the other threads are as they were. */
  ghost predicate OtherLists(w: World, v: World, t: nat) {
    forall u :: u != t ==>
      List(v.procQ, u) == List(w.procQ, u) && List(v.ioQ, u) == List(w.ioQ, u) && List(v.freedQ, u) == List(w.freedQ, u)
  }

  /** A step of thread `t` that gives connection `d` the flags `f` and leads to `pc`. */
  ghost predicate Moves(w: World, v: World, t: nat, d: Con, f: Flags, pc: IoPc) {
    && t < |w.io| && Held(w, t, d) && HoldsOnly(w.io[t], d) && HoldsOnly(pc, d)
    && v.cons == w.cons[d := f] && v.io == w.io[t := pc] && v.proc == w.proc && v.used == w.used
    && v.pipe == w.pipe && v.owed == w.owed && (w.wakeup ==> v.wakeup)
    && f.thread == t && f.removed == w.cons[d].removed && (w.cons[d].dead ==> f.dead)
         && (f.freedList ==> w.cons[d].freedList)
    && FlagsOk(f, |w.io|) && NoLeak(f, d, pc, w.proc) && PcOk(v, t, pc)
  }

  lemma MoveCon(w: World, v: World, t: nat, d: Con, f: Flags, pc: IoPc, c: Con)
    requires Moves(w, v, t, d, f, pc) && ConOk(w, c) && ConOk(w, d)
    ensures ConOk(v, c)
  {}

  lemma MovePc(w: World, v: World, t: nat, d: Con, f: Flags, pc: IoPc, u: nat)
    requires Moves(w, v, t, d, f, pc) && u < |w.io| && PcOk(w, u, w.io[u])
    ensures PcOk(v, u, v.io[u])
  {}

  lemma MoveProc(w: World, v: World, t: nat, d: Con, f: Flags, pc: IoPc)
    requires Moves(w, v, t, d, f, pc) && ProcOk(w)
    ensures ProcOk(v)
  {}

  lemma MoveWake(w: World, v: World, t: nat, d: Con, f: Flags, pc: IoPc, u: nat)
    requires Moves(w, v, t, d, f, pc) && OtherLists(w, v, t) && u < |w.io| && WakeOk(w, u) && WakeOk(v, t)
    ensures WakeOk(v, u)
  {}

  lemma MoveInv(w: World, v: World, t: nat, d: Con, f: Flags, pc: IoPc)
    requires Inv(w) && Moves(w, v, t, d, f, pc) && OtherLists(w, v, t) && QueuesOk(v) && WakeOk(v, t)
    ensures Inv(v)
  {
    hide Agree, OtherLists, WakeOk, ConOk, PcOk, ProcOk, FlagsOk, NoLeak, HoldsOnly;
    forall c: Con ensures ConOk(v, c) { MoveCon(w, v, t, d, f, pc, c); }
    forall u | 0 <= u < |v.io| ensures PcOk(v, u, v.io[u]) { MovePc(w, v, t, d, f, pc, u); }
    forall u | 0 <= u < |v.io| ensures WakeOk(v, u) { MoveWake(w, v, t, d, f, pc, u); }
    MoveProc(w, v, t, d, f, pc);
  }

  predicate Empty(pc: IoPc) { pc.Idle? || pc.Freed? || pc.Io? || pc.Ready? || pc.Signal? }

  ghost predicate Loops(w: World, v: World, t: nat, pc: IoPc) {
    && t < |w.io| && Empty(w.io[t]) && Empty(pc)
    && v == w.(io := w.io[t := pc], wakeup := v.wakeup, pipe := v.pipe) && (w.wakeup ==> v.wakeup)
    && |v.pipe| == |w.pipe| == |w.io| && (forall u :: 0 <= u < |w.io| && u != t ==> v.pipe[u] == w.pipe[u])
  }

  lemma LoopCon(w: World, v: World, t: nat, pc: IoPc, c: Con)
    requires Loops(w, v, t, pc) && ConOk(w, c)
    ensures ConOk(v, c)
  {}

  lemma LoopPc(w: World, v: World, t: nat, pc: IoPc, u: nat)
    requires Loops(w, v, t, pc) && u < |w.io| && PcOk(w, u, w.io[u])
    ensures PcOk(v, u, v.io[u])
  {}

  lemma LoopWake(w: World, v: World, t: nat, pc: IoPc, u: nat)
    requires Loops(w, v, t, pc) && u < |w.io| && WakeOk(w, u) && WakeOk(v, t) && |w.owed| == |w.io|
    ensures WakeOk(v, u)
  {}

  /** A thread that holds nothing goes from one loop to the next. */
  lemma LoopInv(w: World, v: World, t: nat, pc: IoPc)
    requires Inv(w) && Loops(w, v, t, pc) && WakeOk(v, t)
    ensures Inv(v)
  {
    hide Agree, WakeOk, ConOk, PcOk;
    forall c: Con ensures ConOk(v, c) { LoopCon(w, v, t, pc, c); }
    forall u | 0 <= u < |v.io| ensures PcOk(v, u, v.io[u]) { LoopPc(w, v, t, pc, u); }
    forall u | 0 <= u < |v.io| ensures WakeOk(v, u) { LoopWake(w, v, t, pc, u); }
  }

  // One lemma for each place an IO thread can be at

  lemma Here(w: World, t: nat)
    requires Inv(w) && t < |w.io|
    ensures PcOk(w, t, w.io[t]) && WakeOk(w, t) && ProcOk(w) && QueuesOk(w) && |w.pipe| == |w.owed| == |w.io|
  {}

  lemma FreedInv(w: World, t: nat)
    requires Inv(w) && t < |w.io| && w.io[t].Freed?
    ensures Inv(TakeFreed(w, t))
  {
    hide Inv, Agree, Pop;
    Here(w, t);
    HeadFreed(w, t);
    var v, h := TakeFreed(w, t), Head(w.freedQ, t);
    if h.None? {
      LoopInv(w, v, t, Io);
    } else {
      var c := h.value;
      Con(w, c);
      PopFreed(w, t, c);
      PopOthers(w.freedQ, t);
      MoveInv(w, v, t, c, w.cons[c].(freedList := false), Check(c));
    }
  }

  lemma CheckInv(w: World, t: nat)
    requires Inv(w) && t < |w.io| && w.io[t].Check?
    ensures Inv(IoNext(w, t))
  {
    hide Inv, Agree;
    Here(w, t);
    Con(w, w.io[t].con);
    OnInv(w, t, Unproc(w.io[t].con));
  }

  lemma UnprocMoves(w: World, t: nat, c: Con)
    requires t < |w.io| && w.io[t] == Unproc(c) && PcOk(w, t, w.io[t]) && ConOk(w, c)
    ensures Moves(w, TakeOffProc(w, t, c), t, c, w.cons[c].(procList := false), Unio(c))
  {
    hide Remove;
  }

  lemma UnprocWakes(w: World, t: nat, c: Con)
    requires t < |w.io| && w.io[t] == Unproc(c) && PcOk(w, t, w.io[t]) && WakeOk(w, t)
    ensures WakeOk(TakeOffProc(w, t, c), t)
  {
    hide Remove, Ahead;
    NonEmpty(List(w.procQ, t), c);
  }

  lemma UnprocInv(w: World, t: nat, c: Con)
    requires Inv(w) && t < |w.io| && w.io[t] == Unproc(c) && Held(w, t, c)
    ensures Inv(TakeOffProc(w, t, c))
  {
    hide Inv, Agree, Moves, WakeOk, PcOk, ConOk, Remove;
    Here(w, t);
    Con(w, c);
    if w.cons[c].procList { DelProc(w, c); }
    UnprocMoves(w, t, c);
    UnprocWakes(w, t, c);
    MoveInv(w, TakeOffProc(w, t, c), t, c, w.cons[c].(procList := false), Unio(c));
  }

  lemma UnioMoves(w: World, t: nat, c: Con)
    requires t < |w.io| && w.io[t] == Unio(c) && PcOk(w, t, w.io[t]) && ConOk(w, c)
    ensures Moves(w, TakeOffIo(w, t, c), t, c, w.cons[c].(ioList := false), Gone(c))
  {
    hide Remove;
  }

  lemma UnioWakes(w: World, t: nat, c: Con)
    requires t < |w.io| && w.io[t] == Unio(c) && PcOk(w, t, w.io[t]) && WakeOk(w, t)
    ensures WakeOk(TakeOffIo(w, t, c), t)
  {
    hide Remove, Ahead;
    NonEmpty(List(w.ioQ, t), c);
  }

  lemma UnioInv(w: World, t: nat, c: Con)
    requires Inv(w) && t < |w.io| && w.io[t] == Unio(c) && Held(w, t, c)
    ensures Inv(TakeOffIo(w, t, c))
  {
    hide Inv, Agree, Moves, WakeOk, PcOk, ConOk, Remove;
    Here(w, t);
    Con(w, c);
    if w.cons[c].ioList { DelIo(w, c); }
    UnioMoves(w, t, c);
    UnioWakes(w, t, c);
    MoveInv(w, TakeOffIo(w, t, c), t, c, w.cons[c].(ioList := false), Gone(c));
  }

  lemma NonEmpty(q: seq<Con>, c: Con)
    ensures Remove(q, c) != [] ==> q != []
  {}

  /** A connection is destroyed. */
  lemma GoneInv(w: World, t: nat)
    requires Inv(w) && t < |w.io| && w.io[t].Gone?
    ensures Inv(IoNext(w, t))
  {
    hide Agree, FlagsOk, NoLeak;
    var c, v := w.io[t].con, IoNext(w, t);
    assert PcOk(w, t, w.io[t]);
    Vanishes(w, c);
    forall d: Con ensures ConOk(v, d) { GoneCon(w, t, d); }
    forall u | 0 <= u < |v.io| ensures PcOk(v, u, v.io[u]) { GonePc(w, t, u); }
    forall u | 0 <= u < |v.io| ensures WakeOk(v, u) { assert WakeOk(w, u); }
  }

  lemma GoneCon(w: World, t: nat, d: Con)
    requires t < |w.io| && w.io[t].Gone? && PcOk(w, t, w.io[t]) && ConOk(w, d)
    ensures ConOk(IoNext(w, t), d)
  {}

  lemma GonePc(w: World, t: nat, u: nat)
    requires t < |w.io| && u < |w.io| && w.io[t].Gone? && PcOk(w, t, w.io[t]) && PcOk(w, u, w.io[u])
    ensures var v := IoNext(w, t); PcOk(v, u, v.io[u])
  {}

  lemma IoInv(w: World, t: nat)
    requires Inv(w) && t < |w.io| && w.io[t].Io?
    ensures Inv(TakeIo(w, t))
  {
    hide Inv, Agree, Pop;
    Here(w, t);
    HeadIo(w, t);
    var v, h := TakeIo(w, t), Head(w.ioQ, t);
    if h.None? {
      LoopInv(w, v, t, Ready);
    } else {
      var c := h.value;
      Con(w, c);
      PopIo(w, t, c);
      PopOthers(w.ioQ, t);
      MoveInv(w, v, t, c, w.cons[c].(ioList := false), Got(c));
    }
  }

  /** The connection a thread holds is there. */
  lemma Holds(w: World, t: nat)
    requires Inv(w) && t < |w.io| && !Empty(w.io[t])
    ensures Held(w, t, w.io[t].con)
  {
    hide Agree;
    assert PcOk(w, t, w.io[t]);
  }

  /** A thread goes on with the connection it holds, or leaves it alone. */
  lemma OnInv(w: World, t: nat, pc: IoPc)
    requires Inv(w) && t < |w.io| && !Empty(w.io[t]) && w.io[t].con in w.cons
    requires var c := w.io[t].con;
             PcOk(At(w, t, pc), t, pc) && WakeOk(At(w, t, pc), t) && HoldsOnly(pc, c)
                 && NoLeak(w.cons[c], c, pc, w.proc)
    ensures Inv(At(w, t, pc))
  {
    hide Inv, Agree, WakeOk, NoLeak;
    Here(w, t);
    var c := w.io[t].con;
    Con(w, c);
    MoveInv(w, At(w, t, pc), t, c, w.cons[c], pc);
  }

  lemma GotInv(w: World, t: nat)
    requires Inv(w) && t < |w.io| && w.io[t].Got? && w.io[t].con in w.cons
    ensures var c := w.io[t].con; Inv(At(w, t, if w.cons[c].dead then Die(c, ToIo) else Io))
  {
    hide Inv, Agree;
    Here(w, t);
    var c := w.io[t].con;
    Con(w, c);
    OnInv(w, t, if w.cons[c].dead then Die(c, ToIo) else Io);
  }

  lemma ReadyInv(w: World, t: nat)
    requires Inv(w) && t < |w.io| && w.io[t].Ready?
    ensures Inv(At(w, t, Idle))
  {
    hide Inv, Agree;
    Here(w, t);
    LoopInv(w, At(w, t, Idle), t, Idle);
  }

  lemma PacketInv(w: World, t: nat)
    requires Inv(w) && t < |w.io| && w.io[t].Packet?
    ensures Inv(AddPacket(w, t, w.io[t].con))
  {
    hide Inv, Agree, Moves, WakeOk;
    Here(w, t);
    var c := w.io[t].con;
    Con(w, c);
    var f := w.cons[c].(packets := w.cons[c].packets + 1);
    SameFlags(w, c, f);
    PacketMoves(w, t, c);
    PacketWakes(w, t, c);
    MoveInv(w, AddPacket(w, t, c), t, c, f, AskListed(c, ToReady));
  }

  lemma PacketMoves(w: World, t: nat, c: Con)
    requires t < |w.io| && w.io[t] == Packet(c) && PcOk(w, t, w.io[t]) && ConOk(w, c)
    ensures Moves(w, AddPacket(w, t, c), t, c, w.cons[c].(packets := w.cons[c].packets + 1), AskListed(c, ToReady))
  {
    hide Releases;
  }

  lemma PacketWakes(w: World, t: nat, c: Con)
    requires t < |w.io| && w.io[t] == Packet(c) && c in w.cons && WakeOk(w, t)
    ensures WakeOk(AddPacket(w, t, c), t)
  {
    hide Ahead;
  }

  lemma DieMoves(w: World, t: nat, c: Con, b: Back)
    requires t < |w.io| && w.io[t] == Die(c, b) && PcOk(w, t, w.io[t]) && ConOk(w, c)
    ensures Moves(w, MarkDead(w, t, c, b), t, c, w.cons[c].(dead := true), AskRemoved(c, b))
  {
    hide Releases;
  }

  lemma DieWakes(w: World, t: nat, c: Con, b: Back)
    requires t < |w.io| && w.io[t] == Die(c, b) && c in w.cons && WakeOk(w, t)
    ensures WakeOk(MarkDead(w, t, c, b), t)
  {
    hide Ahead;
  }

  lemma DieInv(w: World, t: nat, c: Con, b: Back)
    requires Inv(w) && t < |w.io| && w.io[t] == Die(c, b) && c in w.cons
    ensures Inv(MarkDead(w, t, c, b))
  {
    hide Inv, Agree, Moves, WakeOk, PcOk, ConOk;
    Here(w, t);
    Con(w, c);
    SameFlags(w, c, w.cons[c].(dead := true));
    DieMoves(w, t, c, b);
    DieWakes(w, t, c, b);
    MoveInv(w, MarkDead(w, t, c, b), t, c, w.cons[c].(dead := true), AskRemoved(c, b));
  }

  lemma AskRemovedInv(w: World, t: nat)
    requires Inv(w) && t < |w.io| && w.io[t].AskRemoved? && w.io[t].con in w.cons
    ensures var c, b := w.io[t].con, w.io[t].back;
              Inv(At(w, t, if !w.cons[c].removed then AskListed(c, b) else Return(b)))
  {
    hide Inv, Agree;
    Here(w, t);
    var c, b := w.io[t].con, w.io[t].back;
    Con(w, c);
    OnInv(w, t, if !w.cons[c].removed then AskListed(c, b) else Return(b));
  }

  lemma AskListedInv(w: World, t: nat)
    requires Inv(w) && t < |w.io| && w.io[t].AskListed? && w.io[t].con in w.cons
    ensures var c, b := w.io[t].con, w.io[t].back; Inv(At(w, t, if !w.cons[c].procList then Push(c, b) else Return(b)))
  {
    hide Inv, Agree;
    Here(w, t);
    var c, b := w.io[t].con, w.io[t].back;
    Con(w, c);
    OnInv(w, t, if !w.cons[c].procList then Push(c, b) else Return(b));
  }

  lemma PushInv(w: World, t: nat)
    requires Inv(w) && t < |w.io| && w.io[t].Push?
    ensures Inv(AddToProc(w, t, w.io[t].con, w.io[t].back))
  {
    hide Inv, Agree;
    Here(w, t);
    var c, b := w.io[t].con, w.io[t].back;
    Con(w, c);
    PushProc(w, c);
    MoveInv(w, AddToProc(w, t, w.io[t].con, w.io[t].back), t, c, w.cons[c].(procList := true), Signal(b));
  }

  lemma SignalInv(w: World, t: nat)
    requires Inv(w) && t < |w.io| && w.io[t].Signal?
    ensures Inv(At(w.(wakeup := true), t, Return(w.io[t].back)))
  {
    hide Inv, Agree;
    Here(w, t);
    LoopInv(w, At(w.(wakeup := true), t, Return(w.io[t].back)), t, Return(w.io[t].back));
  }

  lemma IoNextInv(w: World, t: nat)
    requires Inv(w) && t < |w.io|
    ensures Inv(IoNext(w, t))
  {
    hide Inv, TakeFreed, TakeOffProc, TakeOffIo, TakeIo, AddPacket, MarkDead, AddToProc;
    if !Empty(w.io[t]) { Holds(w, t); }
    match w.io[t]
    case Idle =>
    case Freed => FreedInv(w, t);
    case Check(_) => CheckInv(w, t);
    case Unproc(c) => UnprocInv(w, t, c);
    case Unio(c) => UnioInv(w, t, c);
    case Gone(_) => GoneInv(w, t);
    case Io => IoInv(w, t);
    case Got(_) => GotInv(w, t);
    case Ready => ReadyInv(w, t);
    case Packet(_) => PacketInv(w, t);
    case Die(c, b) => DieInv(w, t, c, b);
    case AskRemoved(_, _) => AskRemovedInv(w, t);
    case AskListed(_, _) => AskListedInv(w, t);
    case Push(_, _) => PushInv(w, t);
    case Signal(_) => SignalInv(w, t);
  }

  lemma Con(w: World, c: Con)
    requires Inv(w)
    ensures ConOk(w, c)
  {}

  lemma PopOthers(lists: map<nat, seq<Con>>, t: nat)
    ensures forall u :: u != t ==> List(Pop(lists, t), u) == List(lists, u)
  {}

  // Events

  lemma WakeInv(w: World, t: nat)
    requires Inv(w) && Enabled(w, Wake(t))
    ensures Inv(Step(w, Wake(t)))
  {
    hide Inv, Agree;
    Here(w, t);
    LoopInv(w, Step(w, Wake(t)), t, Freed);
  }

  lemma ReadInv(w: World, t: nat, c: Con)
    requires Inv(w) && Enabled(w, Read(t, c))
    ensures Inv(Step(w, Read(t, c)))
  {
    hide Inv, Agree;
    Here(w, t);
    Con(w, c);
    MoveInv(w, Step(w, Read(t, c)), t, c, w.cons[c], Packet(c));
  }

  lemma HangupInv(w: World, t: nat, c: Con)
    requires Inv(w) && Enabled(w, Hangup(t, c))
    ensures Inv(Step(w, Hangup(t, c)))
  {
    hide Inv, Agree, Moves, WakeOk;
    Here(w, t);
    Con(w, c);
    var f, pc := w.cons[c].(attached := false), Die(c, if w.io[t].Idle? then ToIdle else ToFreed);
    SameFlags(w, c, f);
    var v := At(Set(w, c, f), t, pc);
    HangupMoves(w, t, c, pc);
    HangupWakes(w, t, c, pc);
    MoveInv(w, v, t, c, f, pc);
  }

  lemma HangupMoves(w: World, t: nat, c: Con, pc: IoPc)
    requires Enabled(w, Hangup(t, c)) && ConOk(w, c) && pc.Die? && pc.con == c
    ensures var f := w.cons[c].(attached := false); Moves(w, At(Set(w, c, f), t, pc), t, c, f, pc)
  {
    hide Releases;
  }

  lemma HangupWakes(w: World, t: nat, c: Con, pc: IoPc)
    requires Enabled(w, Hangup(t, c)) && WakeOk(w, t) && pc == Die(c, if w.io[t].Idle? then ToIdle else ToFreed)
    ensures WakeOk(At(Set(w, c, w.cons[c].(attached := false)), t, pc), t)
  {
    hide Ahead;
  }

  lemma ConnectInv(w: World, t: nat, c: Con)
    requires Inv(w) && Enabled(w, Connect(t, c))
    ensures Inv(Step(w, Connect(t, c)))
  {
    hide Agree;
    var v := Step(w, Connect(t, c));
    assert ConOk(w, c);
    NewQueues(w, c, v.cons[c]);
    forall d: Con ensures ConOk(v, d) { assert ConOk(w, d); }
    forall u | 0 <= u < |v.io| ensures PcOk(v, u, v.io[u]) { assert PcOk(w, u, w.io[u]); }
    forall u | 0 <= u < |v.io| ensures WakeOk(v, u) { assert WakeOk(w, u); }
  }

  lemma NewQueues(w: World, c: Con, f: Flags)
    requires QueuesOk(w) && c !in w.cons && !f.procList && !f.ioList && !f.freedList
    ensures QueuesOk(Set(w, c, f))
  {
    hide Owned;
    Reflagged(w.cons, c, f);
    Unflagged(w.cons, c);
  }

  lemma PipeInv(w: World, t: nat)
    requires Inv(w) && Enabled(w, PipeWrite(t))
    ensures Inv(Step(w, PipeWrite(t)))
  {
    hide Agree, FlagsOk, NoLeak;
    var v := Step(w, PipeWrite(t));
    forall d: Con ensures ConOk(v, d) { assert ConOk(w, d); }
    forall u | 0 <= u < |v.io| ensures PcOk(v, u, v.io[u]) { assert PcOk(w, u, w.io[u]); }
    forall u | 0 <= u < |v.io| ensures WakeOk(v, u) { assert WakeOk(w, u); }
  }

  // Steps of the processing thread, and packets that are sent

  predicate Only(pc: ProcPc, d: Con) { pc.Wait? || pc.Scan? || pc.con == d }

  /** A step that gives connection `d` the flags `f`, and the processing thread the place `pc`. */
  ghost predicate Acts(w: World, v: World, d: Con, f: Flags, pc: ProcPc) {
    && d in w.cons && (pc == w.proc || (Only(w.proc, d) && Only(pc, d)))
    && v.cons == w.cons[d := f] && v.proc == pc && v.io == w.io && v.used == w.used
    && |v.pipe| == |w.pipe| && |v.owed| == |w.owed|
    && f.thread == w.cons[d].thread < |w.io| && FlagsOk(f, |w.io|) && NoLeak(f, d, w.io[f.thread], pc)
    && PcOk(v, f.thread, w.io[f.thread])
  }

  lemma ActCon(w: World, v: World, d: Con, f: Flags, pc: ProcPc, c: Con)
    requires Acts(w, v, d, f, pc) && ConOk(w, c) && ConOk(w, d)
    ensures ConOk(v, c)
  {}

  lemma ActPc(w: World, v: World, d: Con, f: Flags, pc: ProcPc, u: nat)
    requires Acts(w, v, d, f, pc) && u < |w.io| && PcOk(w, u, w.io[u])
    ensures PcOk(v, u, v.io[u])
  {}

  lemma ActInv(w: World, v: World, d: Con, f: Flags, pc: ProcPc)
    requires Inv(w) && Acts(w, v, d, f, pc) && QueuesOk(v) && ProcOk(v)
               && (forall u :: 0 <= u < |w.io| ==> WakeOk(v, u))
    ensures Inv(v)
  {
    hide Agree, WakeOk, ConOk, PcOk, ProcOk, FlagsOk, NoLeak, Only;
    forall c: Con ensures ConOk(v, c) { ActCon(w, v, d, f, pc, c); }
    forall u | 0 <= u < |v.io| ensures PcOk(v, u, v.io[u]) { ActPc(w, v, d, f, pc, u); }
  }

  /** The processing thread goes on without touching a connection. */
  lemma TurnInv(w: World, v: World, pc: ProcPc)
    requires Inv(w) && v == w.(proc := pc, wakeup := v.wakeup) && (w.proc.Wait? || w.proc.Scan?)
               && (pc.Wait? || pc.Scan?)
    requires forall u :: 0 <= u < |w.io| ==> WakeOk(v, u)
    ensures Inv(v)
  {
    hide Agree, FlagsOk, WakeOk;
    forall d: Con ensures ConOk(v, d) { assert ConOk(w, d); }
    forall u | 0 <= u < |v.io| ensures PcOk(v, u, v.io[u]) { assert PcOk(w, u, w.io[u]); }
  }

  lemma WaitInv(w: World)
    requires Inv(w) && w.proc.Wait?
    ensures Inv(ProcNext(w))
  {
    hide Agree, FlagsOk, ConOk, PcOk;
    if w.wakeup {
      var v := ProcNext(w);
      forall u | 0 <= u < |w.io| ensures WakeOk(v, u) { assert WakeOk(w, u); }
      TurnInv(w, v, Scan(0));
    }
  }

  lemma There(w: World)
    requires Inv(w)
    ensures ProcOk(w) && QueuesOk(w) && |w.pipe| == |w.owed| == |w.io| && forall u :: 0 <= u < |w.io| ==> WakeOk(w, u)
  {}

  /** Nothing that could be waited for is lost for thread `u`. */
  lemma StillWoken(w: World, v: World, u: nat)
    requires u < |w.io| && |w.pipe| == |w.owed| == |w.io| && WakeOk(w, u) && v.io == w.io && v.pipe == w.pipe
               && |v.owed| == |w.owed|
    requires (w.wakeup ==> v.wakeup) && (Ahead(w.proc, u) ==> Ahead(v.proc, u)) && v.owed[u] >= w.owed[u]
    requires List(v.procQ, u) == List(w.procQ, u) || Ahead(v.proc, u)
    requires List(v.ioQ, u) == List(w.ioQ, u) || v.owed[u] > 0 || List(w.ioQ, u) != []
    requires List(v.freedQ, u) == List(w.freedQ, u) || v.owed[u] > 0 || List(w.freedQ, u) != []
    ensures WakeOk(v, u)
  {
    hide WillFree, WillDrain, Ahead;
  }

  /** The thread whose list is empty is passed. */
  lemma PassInv(w: World, i: nat)
    requires Inv(w) && w.proc == Scan(i) && (i >= |w.io| || Head(w.procQ, i).None?)
    ensures Inv(w.(proc := if i >= |w.io| then Wait else Scan(i + 1)))
  {
    hide Inv, Agree;
    There(w);
    var pc := if i >= |w.io| then Wait else Scan(i + 1);
    forall u | 0 <= u < |w.io| ensures WakeOk(w.(proc := pc), u) { assert WakeOk(w, u); }
    TurnInv(w, w.(proc := pc), pc);
  }

  /** A connection is taken from a list; one that was cleaned up is passed over. */
  lemma TakeInv(w: World, i: nat, c: Con)
    requires Inv(w) && w.proc == Scan(i) && i < |w.io| && Head(w.procQ, i) == Some(c) && Held(w, i, c)
    ensures var v := Set(w, c, w.cons[c].(procList := false)).(procQ := Pop(w.procQ, i));
            Inv(if w.cons[c].removed then v else v.(proc := Drain(c, i, false)))
  {
    hide Inv, Agree, Pop;
    There(w);
    Con(w, c);
    Here(w, i);
    PopProc(w, i, c);
    PopOthers(w.procQ, i);
    var f := w.cons[c].(procList := false);
    var pc := if w.cons[c].removed then w.proc else Drain(c, i, false);
    var v := Set(w, c, f).(procQ := Pop(w.procQ, i), proc := pc);
    forall u | 0 <= u < |w.io| ensures WakeOk(v, u) { StillWoken(w, v, u); }
    ActInv(w, v, c, f, pc);
  }

  lemma ScanInv(w: World, i: nat)
    requires Inv(w) && w.proc == Scan(i)
    ensures Inv(ProcNext(w))
  {
    hide Inv, Agree, Pop;
    There(w);
    HeadProc(w, i);
    if i >= |w.io| || Head(w.procQ, i).None? { PassInv(w, i); } else { TakeInv(w, i, Head(w.procQ, i).value); }
  }

  /** The processing thread goes on with the connection it works on. */
  lemma WorkInv(w: World, c: Con, f: Flags, pc: ProcPc)
    requires Inv(w) && Works(w.proc, c) && c in w.cons && Only(pc, c) && !pc.Wait? && pc.i == w.proc.i
    requires f == w.cons[c].(packets := f.packets) && f.thread < |w.io| && NoLeak(f, c, w.io[f.thread], pc)
    requires ProcOk(Set(w, c, f).(proc := pc)) && !pc.Release?
    ensures Inv(Set(w, c, f).(proc := pc))
  {
    hide Inv, Agree, NoLeak;
    There(w);
    Con(w, c);
    Here(w, f.thread);
    SameFlags(w, c, f);
    var v := Set(w, c, f).(proc := pc);
    forall u | 0 <= u < |w.io| ensures WakeOk(v, u) { StillWoken(w, v, u); }
    ActInv(w, v, c, f, pc);
  }

  lemma DrainInv(w: World)
    requires Inv(w) && w.proc.Drain?
    ensures Inv(ProcNext(w))
  {
    hide Inv, Agree;
    There(w);
    var c := w.proc.con;
    Con(w, c);
    var f := w.cons[c];
    if f.packets > 0 {
      WorkInv(w, c, f.(packets := f.packets - 1), Command(c, w.proc.i));
    } else {
      WorkInv(w, c, f, Decide(c, w.proc.i, w.proc.sent));
      assert Set(w, c, f).cons == w.cons;
    }
  }

  lemma CommandInv(w: World)
    requires Inv(w) && w.proc.Command?
    ensures Inv(ProcNext(w))
  {
    hide Inv, Agree;
    There(w);
    var c := w.proc.con;
    Con(w, c);
    WorkInv(w, c, w.cons[c], Drain(c, w.proc.i, true));
    assert Set(w, c, w.cons[c]).cons == w.cons;
  }

  lemma DecideInv(w: World)
    requires Inv(w) && w.proc.Decide?
    ensures Inv(ProcNext(w))
  {
    hide Inv, Agree;
    There(w);
    var c, i := w.proc.con, w.proc.i;
    Con(w, c);
    var pc := if !w.cons[c].dead then Scan(i) else if w.proc.sent then Requeue(c, i) else Clean(c, i);
    WorkInv(w, c, w.cons[c], pc);
    assert Set(w, c, w.cons[c]).cons == w.cons;
  }

  lemma CleanInv(w: World)
    requires Inv(w) && w.proc.Clean?
    ensures Inv(ProcNext(w))
  {
    hide Inv, Agree;
    There(w);
    var c := w.proc.con;
    Con(w, c);
    WorkInv(w, c, w.cons[c], Mark(c, w.proc.i));
    assert Set(w, c, w.cons[c]).cons == w.cons;
  }

  lemma MarkInv(w: World)
    requires Inv(w) && w.proc.Mark?
    ensures Inv(ProcNext(w))
  {
    hide Inv, Agree;
    There(w);
    var c := w.proc.con;
    Con(w, c);
    Here(w, w.cons[c].thread);
    var f := w.cons[c].(removed := true);
    SameFlags(w, c, f);
    var v := Set(w, c, f).(proc := Release(c, w.proc.i));
    forall u | 0 <= u < |w.io| ensures WakeOk(v, u) { StillWoken(w, v, u); }
    ActInv(w, v, c, f, Release(c, w.proc.i));
  }

  lemma IoAddActs(w: World, c: Con, pc: ProcPc)
    requires c in w.cons && !w.cons[c].removed && ConOk(w, c) && PcOk(w, w.cons[c].thread, w.io[w.cons[c].thread])
    requires pc == w.proc || (w.proc.Requeue? && w.proc.con == c && pc == Scan(w.proc.i))
    ensures Acts(w, IoAdd(w, c).(proc := pc), c, w.cons[c].(ioList := true), pc)
  {
    assert w.cons[c].ioList ==> w.cons[c := w.cons[c].(ioList := true)] == w.cons;
  }

  lemma IoAddWakes(w: World, c: Con, pc: ProcPc, u: nat)
    requires u < |w.io| && |w.pipe| == |w.owed| == |w.io| && c in w.cons && w.cons[c].thread < |w.io| && WakeOk(w, u)
    requires pc == w.proc || (w.proc.Requeue? && w.proc.con == c && pc == Scan(w.proc.i))
    ensures WakeOk(IoAdd(w, c).(proc := pc), u)
  {
    hide WakeOk;
    StillWoken(w, IoAdd(w, c).(proc := pc), u);
  }

  lemma IoAddQueues(w: World, c: Con)
    requires QueuesOk(w) && c in w.cons
    ensures QueuesOk(IoAdd(w, c))
  {
    hide Agree;
    if !w.cons[c].ioList { PushIo(w, c); }
  }

  /** Onto the io list of its thread, with whatever the processing thread does next. */
  lemma IoAddInv(w: World, c: Con, pc: ProcPc)
    requires Inv(w) && c in w.cons && !w.cons[c].removed
    requires pc == w.proc || (w.proc.Requeue? && w.proc.con == c && pc == Scan(w.proc.i))
    ensures Inv(IoAdd(w, c).(proc := pc))
  {
    hide Inv, Agree, Acts, WakeOk;
    There(w);
    Con(w, c);
    Here(w, w.cons[c].thread);
    IoAddActs(w, c, pc);
    IoAddQueues(w, c);
    forall u | 0 <= u < |w.io| ensures WakeOk(IoAdd(w, c).(proc := pc), u) { IoAddWakes(w, c, pc, u); }
    IoAddProc(w, c, pc);
    ActInv(w, IoAdd(w, c).(proc := pc), c, w.cons[c].(ioList := true), pc);
  }

  lemma IoAddProc(w: World, c: Con, pc: ProcPc)
    requires ProcOk(w) && c in w.cons && (pc == w.proc || pc.Scan?)
    ensures ProcOk(IoAdd(w, c).(proc := pc))
  {}

  lemma ReleaseActs(w: World, c: Con, i: nat)
    requires w.proc == Release(c, i) && ProcOk(w) && ConOk(w, c) && PcOk(w, w.cons[c].thread, w.io[w.cons[c].thread])
    ensures Acts(w, FreedAdd(w, c).(proc := Scan(i)), c, w.cons[c].(freedList := true), Scan(i))
  {}

  lemma ReleaseWakes(w: World, c: Con, i: nat, u: nat)
    requires w.proc == Release(c, i) && u < |w.io| && |w.pipe| == |w.owed| == |w.io| && c in w.cons
               && w.cons[c].thread < |w.io| && WakeOk(w, u)
    ensures WakeOk(FreedAdd(w, c).(proc := Scan(i)), u)
  {
    hide WakeOk;
    StillWoken(w, FreedAdd(w, c).(proc := Scan(i)), u);
  }

  lemma ReleaseInv(w: World, c: Con, i: nat)
    requires Inv(w) && w.proc == Release(c, i) && c in w.cons
    ensures Inv(FreedAdd(w, c).(proc := Scan(i)))
  {
    hide Inv, Agree, Acts, WakeOk;
    There(w);
    Con(w, c);
    Here(w, w.cons[c].thread);
    ReleaseActs(w, c, i);
    PushFreed(w, c);
    forall u | 0 <= u < |w.io| ensures WakeOk(FreedAdd(w, c).(proc := Scan(i)), u) { ReleaseWakes(w, c, i, u); }
    ActInv(w, FreedAdd(w, c).(proc := Scan(i)), c, w.cons[c].(freedList := true), Scan(i));
  }

  lemma ProcNextInv(w: World)
    requires Inv(w)
    ensures Inv(ProcNext(w))
  {
    hide Inv, Agree;
    There(w);
    match w.proc
    case Wait => WaitInv(w);
    case Scan(i) => ScanInv(w, i);
    case Drain(_, _, _) => DrainInv(w);
    case Command(_, _) => CommandInv(w);
    case Decide(_, _, _) => DecideInv(w);
    case Requeue(c, i) => IoAddInv(w, c, Scan(i));
    case Clean(_, _) => CleanInv(w);
    case Mark(_, _) => MarkInv(w);
    case Release(c, i) => ReleaseInv(w, c, i);
  }

  /** Every step keeps the invariant. */
  lemma StepInv(w: World, a: Act)
    requires Inv(w) && Enabled(w, a)
    ensures Inv(Step(w, a))
  {
    hide Inv, IoNext, ProcNext, IoAdd;
    match a
    case Connect(t, c) => ConnectInv(w, t, c);
    case Wake(t) => WakeInv(w, t);
    case Next(t) => IoNextInv(w, t);
    case Read(t, c) => ReadInv(w, t, c);
    case Hangup(t, c) => HangupInv(w, t, c);
    case Send(c) => IoAddInv(w, c, w.proc); SameProc(w, c);
    case PipeWrite(t) => PipeInv(w, t);
    case Proc => ProcNextInv(w);
  }

  lemma SameProc(w: World, c: Con)
    requires c in w.cons
    ensures IoAdd(w, c).(proc := w.proc) == IoAdd(w, c)
  {}

  lemma StartInv(n: nat)
    ensures Inv(Start(n))
  {}

  // Runs

  predicate Runs(w: World, steps: seq<Act>)
    decreases |steps|
  {
    steps == [] || (Enabled(w, steps[0]) && Runs(Step(w, steps[0]), steps[1..]))
  }

  function Run(w: World, steps: seq<Act>): World
    requires Runs(w, steps)
    decreases |steps|
  {
    if steps == [] then w else Run(Step(w, steps[0]), steps[1..])
  }

  lemma {:induction false} RunInv(w: World, steps: seq<Act>)
    requires Inv(w) && Runs(w, steps)
    ensures Inv(Run(w, steps))
    decreases |steps|
  {
    hide Inv, Step, Enabled;
    if steps != [] {
      StepInv(w, steps[0]);
      RunInv(Step(w, steps[0]), steps[1..]);
    }
  }

  /** `w` is where some interleaving of the threads of a fresh server leads. */
  ghost predicate Reached(w: World) { exists n, steps :: Leads(n, steps, w) }

  ghost predicate Leads(n: nat, steps: seq<Act>, w: World) { Runs(Start(n), steps) && w == Run(Start(n), steps) }

  lemma ReachedInv(w: World)
    requires Reached(w)
    ensures Inv(w)
  {
    hide Inv, Runs, Run, Start;
    var n, steps :| Leads(n, steps, w);
    StartInv(n);
    RunInv(Start(n), steps);
  }

  // What the invariant means

  /** No thread but `t` has anything to do with connection `c`. */
  predicate InNoOtherHands(w: World, t: nat, c: Con) {
    && (w.proc.Wait? || w.proc.Scan? || w.proc.con != c)
    && forall u :: 0 <= u < |w.io| && u != t ==> !HandsOn(w.io[u], c) && !Frees(w.io[u], c) && w.io[u] != Packet(c)
  }

  /** A connection is destroyed only by its own IO thread, when it is dead and was cleaned up, nobody
      watches its socket, it is on no list and no other thread holds it. */
  lemma DestroyedSafely(w: World, a: Act, c: Con)
    requires Reached(w) && Enabled(w, a) && c in w.cons && c !in Step(w, a).cons
    ensures a.Next? && a.t == w.cons[c].thread && w.io[a.t] == Gone(c)
    ensures var f := w.cons[c]; f.dead && f.removed && !f.attached && !f.procList && !f.ioList && !f.freedList
    ensures InNoOtherHands(w, a.t, c)
    ensures c !in List(w.procQ, a.t) && c !in List(w.ioQ, a.t) && c !in List(w.freedQ, a.t)
  {
    ReachedInv(w);
    OnlyGone(w, a, c);
    Destroyable(w, a.t, c);
  }

  lemma OnlyGone(w: World, a: Act, c: Con)
    requires Enabled(w, a) && c in w.cons && c !in Step(w, a).cons
    ensures a.Next? && w.io[a.t] == Gone(c)
  {
    hide IoNext, ProcNext, IoAdd;
    assert c in Lives(w.cons) && c !in Lives(Step(w, a).cons);
  }

  lemma Destroyable(w: World, t: nat, c: Con)
    requires Inv(w) && t < |w.io| && w.io[t] == Gone(c)
    ensures c in w.cons && t == w.cons[c].thread && InNoOtherHands(w, t, c)
    ensures var f := w.cons[c]; f.dead && f.removed && !f.attached && !f.procList && !f.ioList && !f.freedList
    ensures c !in List(w.procQ, t) && c !in List(w.ioQ, t) && c !in List(w.freedQ, t)
  {
    hide Agree, NoLeak;
    assert PcOk(w, t, w.io[t]) && ConOk(w, c);
    forall u | 0 <= u < |w.io| && u != t ensures !HandsOn(w.io[u], c) && !Frees(w.io[u], c) && w.io[u] != Packet(c) {
      assert PcOk(w, u, w.io[u]);
    }
    Unlisted(w, t, c);
  }

  lemma Unlisted(w: World, t: nat, c: Con)
    requires QueuesOk(w) && c in w.cons
    ensures !w.cons[c].procList ==> c !in List(w.procQ, t)
    ensures !w.cons[c].ioList ==> c !in List(w.ioQ, t)
    ensures !w.cons[c].freedList ==> c !in List(w.freedQ, t)
  {
    assert c in ProcOf(w.cons) <==> w.cons[c].procList;
    assert c in IoOf(w.cons) <==> w.cons[c].ioList;
    assert c in FreedOf(w.cons) <==> w.cons[c].freedList;
  }

  lemma StaysGone(w: World, a: Act, c: Con)
    requires Enabled(w, a) && c in w.used && c !in w.cons
    ensures c in Step(w, a).used && c !in Step(w, a).cons
  {
    hide IoNext, ProcNext, IoAdd;
    assert c !in Lives(w.cons) && c !in Lives(Step(w, a).cons);
  }

  lemma {:induction false} StaysDestroyed(w: World, steps: seq<Act>, c: Con)
    requires Runs(w, steps) && c in w.used && c !in w.cons
    ensures c !in Run(w, steps).cons
    decreases |steps|
  {
    hide Step, Enabled;
    if steps != [] {
      StaysGone(w, steps[0], c);
      StaysDestroyed(Step(w, steps[0]), steps[1..], c);
    }
  }

  /** No thread is anywhere in the code with connection `c`, and no list holds it. */
  ghost predicate NoTrace(w: World, c: Con) {
    && (w.proc.Wait? || w.proc.Scan? || w.proc.con != c)
    && (forall t :: 0 <= t < |w.io| ==> !HandsOn(w.io[t], c) && !Frees(w.io[t], c) && w.io[t] != Packet(c))
    && (forall t :: c !in List(w.procQ, t) && c !in List(w.ioQ, t) && c !in List(w.freedQ, t))
  }

  lemma GoneForGood(w: World, c: Con)
    requires Inv(w) && c !in w.cons
    ensures NoTrace(w, c)
  {
    hide ConOk, WakeOk, Agree;
    forall t | 0 <= t < |w.io| ensures !HandsOn(w.io[t], c) && !Frees(w.io[t], c) && w.io[t] != Packet(c) {
      assert PcOk(w, t, w.io[t]);
    }
    forall t: nat ensures c !in List(w.procQ, t) && c !in List(w.ioQ, t) && c !in List(w.freedQ, t) {
      OffLists(w, t, c);
    }
  }

  lemma OffLists(w: World, t: nat, c: Con)
    requires QueuesOk(w) && c !in w.cons
    ensures c !in List(w.procQ, t) && c !in List(w.ioQ, t) && c !in List(w.freedQ, t)
  {
    assert c !in ProcOf(w.cons) && c !in IoOf(w.cons) && c !in FreedOf(w.cons);
  }

  /** A connection is destroyed once: after that no thread holds it, no list does, and no thread ever comes
      to destroy it again, however the run goes on. */
  lemma DestroyedOnce(w: World, steps: seq<Act>, c: Con)
    requires Reached(w) && Runs(w, steps) && c in w.used && c !in w.cons
    ensures var v := Run(w, steps); c !in v.cons && NoTrace(v, c) && forall t :: 0 <= t < |v.io| ==> v.io[t] != Gone(c)
  {
    hide Inv, Runs, Run;
    ReachedInv(w);
    RunInv(w, steps);
    StaysDestroyed(w, steps, c);
    GoneForGood(Run(w, steps), c);
  }

  /** A command never runs on a connection that was cleaned up or destroyed. */
  lemma CommandsOnLive(w: World)
    requires Reached(w) && w.proc.Command?
    ensures w.proc.con in w.cons && !w.cons[w.proc.con].removed
  {
    ReachedInv(w);
  }

  /** A connection that is dead is on the processing, io or to-be-freed list of its thread, or in the
      hands of its thread or the processing thread. */
  lemma NeverForgotten(w: World, c: Con)
    requires Reached(w) && c in w.cons && w.cons[c].dead
    ensures var t := w.cons[c].thread;
            && t < |w.io|
            && (|| c in List(w.procQ, t) || c in List(w.ioQ, t) || c in List(w.freedQ, t)
                || HandsOn(w.io[t], c) || Frees(w.io[t], c) || Works(w.proc, c) || Releases(w.proc, c))
  {
    ReachedInv(w);
    assert ConOk(w, c);
    hide Inv, ConOk, FlagsOk;
    Flagged(w, c);
  }

  lemma Flagged(w: World, c: Con)
    requires Inv(w) && c in w.cons
    ensures var t := w.cons[c].thread;
            && (w.cons[c].procList ==> c in List(w.procQ, t)) && (w.cons[c].ioList ==> c in List(w.ioQ, t))
            && (w.cons[c].freedList ==> c in List(w.freedQ, t))
  {
    hide ConOk, PcOk, WakeOk, ProcOk;
    if w.cons[c].procList { assert ProcOf(w.cons)[c] == w.cons[c].thread; }
    if w.cons[c].ioList { assert IoOf(w.cons)[c] == w.cons[c].thread; }
    if w.cons[c].freedList { assert FreedOf(w.cons)[c] == w.cons[c].thread; }
  }

  /** No wakeup of the processing thread is lost: while it waits, with nobody about to signal, no
      processing list holds anything unless it was told to wake up. */
  lemma ProcWoken(w: World, t: nat)
    requires Reached(w) && t < |w.io| && w.proc.Wait? && !w.io[t].Signal? && List(w.procQ, t) != []
    ensures w.wakeup
  {
    ReachedInv(w);
    assert WakeOk(w, t);
  }

  /** Everybody waits, and no wakeup is under way. */
  predicate AtRest(w: World) {
    && w.proc.Wait? && !w.wakeup
    && forall t :: 0 <= t < |w.io| ==> w.io[t].Idle? && t < |w.pipe| && !w.pipe[t] && t < |w.owed| && w.owed[t] == 0
  }

  /** When everybody waits there is nothing left to do: all lists are empty, every connection whose socket
      failed has been destroyed, and every packet that was read has been taken out. */
  lemma NothingLeft(w: World)
    requires Reached(w) && AtRest(w)
    ensures forall t :: 0 <= t < |w.io| ==> List(w.procQ, t) == [] && List(w.ioQ, t) == [] && List(w.freedQ, t) == []
    ensures forall c :: c in w.cons ==> w.cons[c].attached && !w.cons[c].dead && w.cons[c].packets == 0
  {
    hide Inv, AtRest;
    ReachedInv(w);
    forall t | 0 <= t < |w.io| ensures List(w.procQ, t) == [] && List(w.ioQ, t) == [] && List(w.freedQ, t) == [] {
      RestLists(w, t);
    }
    forall c | c in w.cons ensures w.cons[c].attached && !w.cons[c].dead && w.cons[c].packets == 0 {
      Con(w, c);
      Flagged(w, c);
      RestLists(w, w.cons[c].thread);
      NotAtRest(w, c);
    }
  }

  lemma RestLists(w: World, t: nat)
    requires Inv(w) && AtRest(w) && t < |w.io|
    ensures List(w.procQ, t) == [] && List(w.ioQ, t) == [] && List(w.freedQ, t) == []
  {
    assert WakeOk(w, t);
  }

  lemma NotAtRest(w: World, c: Con)
    requires c in w.cons && ConOk(w, c) && AtRest(w)
    requires var t := w.cons[c].thread;
             && List(w.procQ, t) == [] && List(w.ioQ, t) == [] && List(w.freedQ, t) == []
             && (w.cons[c].procList ==> c in List(w.procQ, t)) && (w.cons[c].ioList ==> c in List(w.ioQ, t))
             && (w.cons[c].freedList ==> c in List(w.freedQ, t))
    ensures w.cons[c].attached && !w.cons[c].dead && w.cons[c].packets == 0
  {
    var t := w.cons[c].thread;
    assert 0 <= t < |w.io|;
    assert w.io[t].Idle?;
  }
}
