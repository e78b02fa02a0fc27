/** The life of a connection between the IO threads and the processing thread, as interleaved steps:
    one step per locked region or unlocked access to a shared flag. */
module ConThreads {
  import opened Seqs

  type Con = nat

  /** What a connection's flags say; `attached` is whether its IO thread still watches its socket. */
  datatype Flags = Flags(
    thread: nat, attached: bool, dead: bool, removed: bool,
    procList: bool, ioList: bool, freedList: bool, packets: nat)

  /** Where an IO thread goes on after it dealt with a connection. */
  datatype Back = ToIdle | ToFreed | ToIo | ToReady

  /** Where an IO thread is. */
  datatype IoPc =
    | Idle                               // in the event loop
    | Freed | Io | Ready                 // the three loops of `gearman_server_thread_run`
    | Check(con: Con)                    // took it from the to-be-freed list
    | Unproc(con: Con) | Unio(con: Con) | Gone(con: Con)   // in `gearman_server_con_free`
    | Got(con: Con)                      // took it from the io list
    | Packet(con: Con)                   // read a packet from it
    | Die(con: Con, back: Back)          // in `gearman_server_con_attempt_free`
    | AskRemoved(con: Con, back: Back)
    | AskListed(con: Con, back: Back)    // in `gearman_server_con_proc_add`
    | Push(con: Con, back: Back)
    | Signal(back: Back)

  /** Where the processing thread is; `i` is the IO thread whose list it works on. */
  datatype ProcPc =
    | Wait
    | Scan(i: nat)
    | Drain(con: Con, i: nat, sent: bool)
    | Command(con: Con, i: nat)
    | Decide(con: Con, i: nat, sent: bool)
    | Requeue(con: Con, i: nat)
    | Clean(con: Con, i: nat)
    | Mark(con: Con, i: nat)
    | Release(con: Con, i: nat)

  /** `owed` are the wakeups that were promised under a lock and not yet written to the pipe. */
  datatype World = World(
    cons: map<Con, Flags>, used: set<Con>,
    procQ: map<nat, seq<Con>>, ioQ: map<nat, seq<Con>>, freedQ: map<nat, seq<Con>>,
    io: seq<IoPc>, proc: ProcPc, wakeup: bool, pipe: seq<bool>, owed: seq<nat>)

  datatype Act =
    | Connect(t: nat, con: Con)
    | Wake(t: nat)                       // an event, or a byte in the pipe
    | Next(t: nat)                       // the next step of an IO thread
    | Read(t: nat, con: Con)             // the socket has a packet
    | Hangup(t: nat, con: Con)           // the socket fails, or the other side has closed it
    | Send(con: Con)                     // somebody queues a packet for the connection
    | PipeWrite(t: nat)
    | Proc                               // the next step of the processing thread

  function Return(b: Back): IoPc {
    match b case ToIdle => Idle case ToFreed => Freed case ToIo => Io case ToReady => Ready
  }

  /** Which connections there are, which are dead and which were cleaned up. */
  function Lives(cons: map<Con, Flags>): map<Con, (bool, bool)> { map c | c in cons :: (cons[c].dead, cons[c].removed) }

  function Set(w: World, c: Con, f: Flags): World { w.(cons := w.cons[c := f]) }

  function At(w: World, t: nat, pc: IoPc): World
    requires t < |w.io|
  {
    w.(io := w.io[t := pc])
  }

  /** The first of a list. */
  function Head(lists: map<nat, seq<Con>>, t: nat): Option<Con> {
    var q := List(lists, t);
    if q == [] then None else Some(q[0])
  }

  function Pop(lists: map<nat, seq<Con>>, t: nat): map<nat, seq<Con>> {
    var q := List(lists, t);
    if q == [] then lists else lists[t := RemoveAt(q, 0)]
  }

  function PushOn(lists: map<nat, seq<Con>>, t: nat, c: Con): map<nat, seq<Con>> { lists[t := [c] + List(lists, t)] }

  function Owe(w: World, t: nat): World {
    if t < |w.owed| then w.(owed := w.owed[t := w.owed[t] + 1]) else w
  }

  /** `gearman_server_con_io_add`: onto the list unless it is there; the first one wakes the thread. */
  function IoAdd(w: World, c: Con): (v: World)
    requires c in w.cons
    ensures Lives(v.cons) == Lives(w.cons) && v.used == w.used
  {
    var f := w.cons[c];
    if f.ioList then w else
    var v := Set(w, c, f.(ioList := true)).(ioQ := PushOn(w.ioQ, f.thread, c));
    if List(w.ioQ, f.thread) == [] then Owe(v, f.thread) else v
  }

  /** `gearman_server_con_to_be_freed_add` */
  function FreedAdd(w: World, c: Con): (v: World)
    requires c in w.cons
    ensures Lives(v.cons) == Lives(w.cons) && v.used == w.used
  {
    var f := w.cons[c];
    if f.freedList then w else
    var v := Set(w, c, f.(freedList := true)).(freedQ := PushOn(w.freedQ, f.thread, c));
    if List(w.freedQ, f.thread) == [] then Owe(v, f.thread) else v
  }

  // The steps of an IO thread

  /** `gearman_server_con_to_be_freed_next` */
  function TakeFreed(w: World, t: nat): (v: World)
    requires t < |w.io|
    ensures Lives(v.cons) == Lives(w.cons) && v.used == w.used
  {
    var c := Head(w.freedQ, t);
    if c.None? || c.value !in w.cons then At(w, t, Io)
    else At(Set(w, c.value, w.cons[c.value].(freedList := false)).(freedQ := Pop(w.freedQ, t)), t, Check(c.value))
  }

  /** `gearman_server_con_proc_remove`, if the connection is on the list. */
  function TakeOffProc(w: World, t: nat, c: Con): (v: World)
    requires t < |w.io|
    ensures Lives(v.cons) == Lives(w.cons) && v.used == w.used
  {
    if c !in w.cons then At(w, t, Freed) else
    var f := w.cons[c];
    if !f.procList then At(w, t, Unio(c))
    else At(Set(w, c, f.(procList := false)).(procQ := w.procQ[f.thread := Remove(List(w.procQ, f.thread), c)]), t,
        Unio(c))
  }

  /** `gearman_server_con_io_remove`, if the connection is on the list. */
  function TakeOffIo(w: World, t: nat, c: Con): (v: World)
    requires t < |w.io|
    ensures Lives(v.cons) == Lives(w.cons) && v.used == w.used
  {
    if c !in w.cons then At(w, t, Freed) else
    var f := w.cons[c];
    if !f.ioList then At(w, t, Gone(c))
    else At(Set(w, c, f.(ioList := false)).(ioQ := w.ioQ[f.thread := Remove(List(w.ioQ, f.thread), c)]), t, Gone(c))
  }

  /** `gearman_server_con_io_next` */
  function TakeIo(w: World, t: nat): (v: World)
    requires t < |w.io|
    ensures Lives(v.cons) == Lives(w.cons) && v.used == w.used
  {
    var c := Head(w.ioQ, t);
    if c.None? || c.value !in w.cons then At(w, t, Ready)
    else At(Set(w, c.value, w.cons[c.value].(ioList := false)).(ioQ := Pop(w.ioQ, t)), t, Got(c.value))
  }

  /** The first half of `gearman_server_proc_packet_add`. */
  function AddPacket(w: World, t: nat, c: Con): (v: World)
    requires t < |w.io|
    ensures Lives(v.cons) == Lives(w.cons) && v.used == w.used
  {
    if c !in w.cons then At(w, t, Ready)
    else At(Set(w, c, w.cons[c].(packets := w.cons[c].packets + 1)), t, AskListed(c, ToReady))
  }

  function MarkDead(w: World, t: nat, c: Con, b: Back): (v: World)
    requires t < |w.io|
    ensures Lives(v.cons) == (if c in w.cons then Lives(w.cons)[c := (true, w.cons[c].removed)] else Lives(w.cons))
              && v.used == w.used
  {
    if c !in w.cons then At(w, t, Return(b)) else At(Set(w, c, w.cons[c].(dead := true)), t, AskRemoved(c, b))
  }

  function AddToProc(w: World, t: nat, c: Con, b: Back): (v: World)
    requires t < |w.io|
    ensures Lives(v.cons) == Lives(w.cons) && v.used == w.used
  {
    if c !in w.cons then At(w, t, Return(b))
    else At(Set(w, c, w.cons[c].(procList := true)).(procQ := PushOn(w.procQ, w.cons[c].thread, c)), t, Signal(b))
  }

  /** The next step of IO thread `t`, outside its event loop. */
  function IoNext(w: World, t: nat): (v: World)
    requires t < |w.io|
    ensures v.used == w.used
    ensures var pc := w.io[t];
            Lives(v.cons) ==
              if pc.Gone? then Lives(w.cons) - {pc.con}
              else if pc.Die? && pc.con in w.cons then Lives(w.cons)[pc.con := (true, w.cons[pc.con].removed)]
              else Lives(w.cons)
  {
    match w.io[t]
    case Idle => w
    case Freed => TakeFreed(w, t)
    case Check(c) => At(w, t, if c in w.cons && w.cons[c].dead && w.cons[c].removed then Unproc(c) else Freed)
    case Unproc(c) => TakeOffProc(w, t, c)
    case Unio(c) => TakeOffIo(w, t, c)
    case Gone(c) => At(w.(cons := w.cons - {c}), t, Freed)
    case Io => TakeIo(w, t)
    case Got(c) => At(w, t, if c in w.cons && w.cons[c].dead then Die(c, ToIo) else Io)
    case Ready => At(w, t, Idle)
    case Packet(c) => AddPacket(w, t, c)
    case Die(c, b) => MarkDead(w, t, c, b)
    case AskRemoved(c, b) => At(w, t, if c in w.cons && !w.cons[c].removed then AskListed(c, b) else Return(b))
    case AskListed(c, b) => At(w, t, if c in w.cons && !w.cons[c].procList then Push(c, b) else Return(b))
    case Push(c, b) => AddToProc(w, t, c, b)
    case Signal(b) => At(w.(wakeup := true), t, Return(b))
  }

  // The steps of the processing thread

  /** `gearman_server_con_proc_next`: a connection that was cleaned up is passed over. */
  function TakeProc(w: World, i: nat): (v: World)
    ensures Lives(v.cons) == Lives(w.cons) && v.used == w.used
  {
    var c := Head(w.procQ, i);
    if c.None? || c.value !in w.cons then w.(proc := Scan(i + 1)) else
    var v := Set(w, c.value, w.cons[c.value].(procList := false)).(procQ := Pop(w.procQ, i));
    if w.cons[c.value].removed then v else v.(proc := Drain(c.value, i, false))
  }

  /** `gearman_server_proc_packet_remove` */
  function TakePacket(w: World, c: Con, i: nat, sent: bool): (v: World)
    ensures Lives(v.cons) == Lives(w.cons) && v.used == w.used
  {
    if c in w.cons && w.cons[c].packets > 0
    then Set(w, c, w.cons[c].(packets := w.cons[c].packets - 1)).(proc := Command(c, i))
    else w.(proc := Decide(c, i, sent))
  }

  function MarkRemoved(w: World, c: Con, i: nat): (v: World)
    ensures Lives(v.cons) == (if c in w.cons then Lives(w.cons)[c := (w.cons[c].dead, true)] else Lives(w.cons))
              && v.used == w.used
  {
    if c in w.cons then Set(w, c, w.cons[c].(removed := true)).(proc := Release(c, i)) else w.(proc := Scan(i))
  }

  /** The next step of the processing thread, `_proc`. */
  function ProcNext(w: World): (v: World)
    ensures v.used == w.used
    ensures var p := w.proc;
            Lives(v.cons) == if p.Mark? && p.con in w.cons then Lives(w.cons)[p.con := (w.cons[p.con].dead, true)]
                else Lives(w.cons)
  {
    match w.proc
    case Wait => if w.wakeup then w.(wakeup := false, proc := Scan(0)) else w
    case Scan(i) => if i >= |w.io| then w.(proc := Wait) else TakeProc(w, i)
    case Drain(c, i, sent) => TakePacket(w, c, i, sent)
    case Command(c, i) => w.(proc := Drain(c, i, true))
    case Decide(c, i, sent) =>
      w.(proc := if c !in w.cons || !w.cons[c].dead then Scan(i) else if sent then Requeue(c, i) else Clean(c, i))
    case Requeue(c, i) => if c in w.cons then IoAdd(w, c).(proc := Scan(i)) else w.(proc := Scan(i))
    case Clean(c, i) => w.(proc := Mark(c, i))
    case Mark(c, i) => MarkRemoved(w, c, i)
    case Release(c, i) => if c in w.cons then FreedAdd(w, c).(proc := Scan(i)) else w.(proc := Scan(i))
  }

  /** When a step can happen. Nothing is sent to a connection that was cleaned up, since no worker and
      no client refers to it. */
  predicate Enabled(w: World, a: Act) {
    match a
    case Connect(t, c) => t < |w.io| && w.io[t].Idle? && c !in w.used
    case Wake(t) => t < |w.io| && w.io[t].Idle?
    case Next(t) => t < |w.io| && !w.io[t].Idle?
    case Read(t, c) => t < |w.io| && w.io[t].Ready? && c in w.cons && w.cons[c].thread == t && w.cons[c].attached
    case Hangup(t, c) =>
      && t < |w.io| && c in w.cons && w.cons[c].thread == t && w.cons[c].attached
      && (w.io[t].Ready? || w.io[t].Idle? || w.io[t] == Got(c))
    case Send(c) => c in w.cons && !w.cons[c].removed
    case PipeWrite(t) => t < |w.owed| && w.owed[t] > 0
    case Proc => true
  }

  function Step(w: World, a: Act): World
    requires Enabled(w, a)
  {
    match a
    case Connect(t, c) => Set(w, c, Flags(t, true, false, false, false, false, false, 0)).(used := w.used + {c})
    case Wake(t) => At(w, t, Freed).(pipe := if t < |w.pipe| then w.pipe[t := false] else w.pipe)
    case Next(t) => IoNext(w, t)
    case Read(t, c) => At(w, t, Packet(c))
    case Hangup(t, c) => At(Set(w, c, w.cons[c].(attached := false)), t,
        Die(c, if w.io[t].Idle? then ToIdle else ToFreed))
    case Send(c) => IoAdd(w, c)
    case PipeWrite(t) => w.(owed := w.owed[t := w.owed[t] - 1], pipe := if t < |w.pipe| then w.pipe[t := true]
        else w.pipe)
    case Proc => ProcNext(w)
  }

  /** A server with `n` IO threads and no connections. */
  function Start(n: nat): World {
    World(map[], {}, map[], map[], map[], seq(n, i => Idle), Wait, false, seq(n, i => false), seq(n, i => 0))
  }
}
