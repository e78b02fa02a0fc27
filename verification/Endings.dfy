/** How a job ends for its clients, when it is canceled or when its result cannot be stored. */
module Endings {
  import opened Seqs
  import opened Scheduler
  import opened Tables
  import opened Uniques
  import opened Traces
  import opened Invariant
  import opened JobOps
  import opened Selection
  import opened Commands
  import opened Steps

  /** The connection of the client did not ask for exceptions. */
  ghost predicate Plain(s: State, cl: Id) {
    cl in s.clients && s.clients[cl].con in s.cons && !s.cons[s.clients[cl].con].exceptions
  }

  /** What a client hears of a packet of kind `kind`: just that, or a failure for an exception it did not ask
      for. */
  ghost function Heard(s: State, cl: Id, kind: Kind): Kind { if kind == Exception && Plain(s, cl) then Fail else kind }

  lemma Says(s: State, cl: Id, j: Id, kind: Kind)
    ensures Packet(s, cl, j, kind) == Work(cl, j, Heard(s, cl, kind))
    ensures Terminal(Heard(s, cl, kind)) <==> Terminal(kind)
  {}

  lemma {:induction false} FanOutTells(s: State, cls: seq<Id>, j: Id, kind: Kind, i: nat)
    requires i < |cls|
    ensures var out := FanOut(s, cls, j, kind).out;
            && |out| == |s.out| + |cls| && s.out == out[..|s.out|]
            && out[|s.out| + i] == Work(cls[i], j, Heard(s, cls[i], kind))
            && (Terminal(Heard(s, cls[i], kind)) <==> Terminal(kind))
    decreases |cls|
  {
    hide Packet, Accepts;
    var o := Packet(s, cls[0], j, kind);
    Says(s, cls[0], j, kind);
    var t := Emit(s, o);
    if |cls| == 1 {
      assert FanOut(t, cls[1..], j, kind) == t;
    } else {
      FanOutTells(t, cls[1..], j, kind, if i == 0 then 0 else i - 1);
      var out := FanOut(t, cls[1..], j, kind).out;
      assert out[..|s.out| + 1] == s.out + [o];
      assert out[|s.out|] == (s.out + [o])[|s.out|];
      assert out[..|s.out|] == out[..|s.out| + 1][..|s.out|];
    }
  }

  lemma {:induction false} SameFound(a: Jobs, b: Jobs, chain: seq<Id>, p: Job -> bool)
    requires forall j :: j in chain ==> (j in a <==> j in b) && (j in a ==> p(a[j]) == p(b[j]))
    ensures Find(a, chain, p) == Find(b, chain, p)
  {
    if chain != [] {
      assert chain[0] in chain;
      SameFound(a, b, chain[1..], p);
    }
  }

  lemma SameJobGet(cfg: Config, s: State, t: State, h: string, owner: Option<Id>)
    requires t.handleIx == s.handleIx && t.runs == s.runs && t.workers == s.workers
    requires forall j :: (j in t.jobs <==> j in s.jobs) && (j in s.jobs ==> t.jobs[j].spec == s.jobs[j].spec)
    ensures JobGet(cfg, t, h, owner) == JobGet(cfg, s, h, owner)
  {
    hide Find, Bucket;
    var key := cfg.hash(h);
    SameFound(t.jobs, s.jobs, List(s.handleIx, Bucket(cfg, key)), (job: Job) => job.spec.handleKey == key
        && job.spec.handle == h);
  }

  lemma FreeJobOut(cfg: Config, s: State, j: Id)
    ensures FreeJob(cfg, s, j).out == s.out
  {
    hide Untimed, FreeClients, Detach, Unlink;
  }

  /** What canceling job `j` leaves of it: its clients have been told, but are still attached, and it
      still runs where it runs. */
  lemma Canceled(cfg: Config, s: State, h: string, ok: bool, j: Id)
    requires JobGet(cfg, s, h, None) == Some(j) && j in s.jobs
    ensures var t := CancelJob(cfg, s, h, ok);
            && t.out == FanOut(s, List(s.jobClients, j), j, Fail).out && t.jobClients == s.jobClients
                 && t.clients == s.clients
            && t.handleIx == s.handleIx && t.runs == s.runs && t.workers == s.workers
            && forall i :: (i in t.jobs <==> i in s.jobs) && (i in s.jobs ==> t.jobs[i].spec == s.jobs[i].spec)
  {
    hide JobGet, FanOut, CancelJob, List, Accepts;
    CancelFrame(cfg, s, h, ok, j);
  }

  lemma CancelFrame(cfg: Config, s: State, h: string, ok: bool, j: Id)
    requires JobGet(cfg, s, h, None) == Some(j) && j in s.jobs
    ensures var t := CancelJob(cfg, s, h, ok);
            && t == s.(out := t.out, store := t.store, jobs := t.jobs)
            && t.out == FanOut(s, List(s.jobClients, j), j, Fail).out
            && t.store == (if s.jobs[j].queued && ok then s.store - {KeyOf(s.jobs[j])} else s.store)
            && t.jobs == if s.jobs[j].queued && !ok then s.jobs
                 else s.jobs[j := s.jobs[j].(ignore := true, queued := false)]
  {
    hide JobGet, FanOut, CancelJob, List, Accepts;
    if s.jobs[j].queued && !ok { CancelStays(cfg, s, h, ok, j); } else { CancelGoes(cfg, s, h, ok, j); }
  }

  lemma CancelStays(cfg: Config, s: State, h: string, ok: bool, j: Id)
    requires JobGet(cfg, s, h, None) == Some(j) && j in s.jobs && s.jobs[j].queued && !ok
    ensures CancelJob(cfg, s, h, ok) == FanOut(s, List(s.jobClients, j), j, Fail)
  {
    hide JobGet, FanOut, QueueDone, List, Accepts;
  }

  lemma CancelGoes(cfg: Config, s: State, h: string, ok: bool, j: Id)
    requires JobGet(cfg, s, h, None) == Some(j) && j in s.jobs && !(s.jobs[j].queued && !ok)
    ensures var t := CancelJob(cfg, s, h, ok);
            && t == s.(out := t.out, store := t.store, jobs := s.jobs[j := s.jobs[j].(ignore := true, queued := false)])
            && t.out == FanOut(s, List(s.jobClients, j), j, Fail).out
            && t.store == if s.jobs[j].queued then s.store - {KeyOf(s.jobs[j])} else s.store
  {
    hide JobGet, FanOut, QueueDone, List, Accepts, KeyOf;
    var s1 := QueueDone(FanOut(s, List(s.jobClients, j), j, Fail), j);
    QueueForgets(FanOut(s, List(s.jobClients, j), j, Fail), j);
    assert CancelJob(cfg, s, h, ok) == SetJob(s1, j, s.jobs[j].(ignore := true, queued := false));
  }

  lemma QueueForgets(s: State, j: Id)
    requires j in s.jobs
    ensures QueueDone(s, j).store == if s.jobs[j].queued then s.store - {KeyOf(s.jobs[j])} else s.store
  {}

  lemma AllTold(s: State, cls: seq<Id>, j: Id, kind: Kind, cl: Id)
    requires Terminal(kind)
    ensures s.out <= FanOut(s, cls, j, kind).out
    ensures cl in cls ==> Closed(FanOut(s, cls, j, kind).out, cl)
  {
    hide FanOut, Accepts;
    if cls == [] {
      FanOutNone(s, j, kind);
    } else {
      var i := if cl in cls then Position(cls, cl) else 0;
      FanOutTells(s, cls, j, kind, i);
      var out := FanOut(s, cls, j, kind).out;
      assert out[|s.out| + i].Work?;
    }
  }

  lemma FanOutNone(s: State, j: Id, kind: Kind)
    ensures FanOut(s, [], j, kind) == s
  {}

  ghost function Position(q: seq<Id>, x: Id): (i: nat)
    requires x in q
    ensures i < |q| && q[i] == x
  {
    var i :| 0 <= i < |q| && q[i] == x; i
  }

  /** Canceling job `j`: all its clients are told that it failed, and nobody and nothing moves. The job is
      ignored from now on and no longer in the persistent queue, unless it cannot be taken out of that; no other
      job changes. */
  ghost predicate Calls(s: State, t: State, j: Id, storeOk: bool) {
    && (forall cl :: cl in List(s.jobClients, j) ==> Closed(t.out, cl)) && s.out <= t.out
    && t.clients == s.clients && t.jobClients == s.jobClients && t.runs == s.runs && t.running == s.running
    && t.fifo == s.fifo && t.workers == s.workers && t.cons == s.cons && t.fns == s.fns
    && j in s.jobs && t.jobs.Keys == s.jobs.Keys && (forall i :: i in s.jobs && i != j ==> t.jobs[i] == s.jobs[i])
    && (if s.jobs[j].queued && !storeOk then t.jobs == s.jobs && t.store == s.store
        else t.jobs[j].ignore && !t.jobs[j].queued
             && t.store == if s.jobs[j].queued then s.store - {KeyOf(s.jobs[j])} else s.store)
  }

  lemma CancelCalls(cfg: Config, s: State, h: string, ok: bool, j: Id)
    requires JobGet(cfg, s, h, None) == Some(j) && j in s.jobs
    ensures Calls(s, CancelJob(cfg, s, h, ok), j, ok)
  {
    hide JobGet, FanOut, CancelJob, Accepts, Closed;
    CancelFrame(cfg, s, h, ok, j);
    var cls := List(s.jobClients, j);
    AllTold(s, cls, j, Fail, 0);
    forall cl | cl in cls ensures Closed(FanOut(s, cls, j, Fail).out, cl) { AllTold(s, cls, j, Fail, cl); }
  }

  // Hearing more

  /** Whoever was told how a job ended and is told anything again, was not to be. */
  lemma ToldAgain(s: State, cls: seq<Id>, j: Id, kind: Kind, i: nat)
    requires i < |cls| && Closed(s.out, cls[i])
    ensures !Clean(FanOut(s, cls, j, kind).out)
  {
    hide FanOut, Accepts;
    FanOutTells(s, cls, j, kind, i);
    var a :| 0 <= a < |s.out| && s.out[a].Work? && s.out[a].client == cls[i] && Terminal(s.out[a].kind);
    var out := FanOut(s, cls, j, kind).out;
    assert out[a] == out[..|s.out|][a];
    assert !Follows(out[a], out[|s.out| + i]);
  }

  lemma Resulted(cfg: Config, s: State, c: Id, h: string, kind: Kind, ok: bool, j: Id)
    requires JobGet(cfg, s, h, Some(c)) == Some(j) && j in s.jobs && |h| < JOB_HANDLE_SIZE
    ensures WorkResult(cfg, s, c, h, kind, ok).out ==
              FanOut(Emit(s, Accepted(c, j)), List(s.jobClients, j), j, kind).out
  {
    hide JobGet, FanOut, QueueDone, FreeJob, Accepts;
    FreeJobOut(cfg, QueueDone(FanOut(Emit(s, Accepted(c, j)), List(s.jobClients, j), j, kind), j), j);
  }

  /** The commands about a job that its clients hear of: from the connection that runs it, or a cancel. */
  ghost predicate About(s: State, e: Event, h: string, j: Id) {
    || (e.Result? && e.handle == h && RunsOn(s, j, e.con) && |h| < JOB_HANDLE_SIZE)
    || (e.Update? && e.handle == h && RunsOn(s, j, e.con))
    || (e.Cancel? && e.handle == h)
  }

  lemma GetOwned(cfg: Config, s: State, h: string, c: Id, j: Id)
    requires JobGet(cfg, s, h, None) == Some(j) && RunsOn(s, j, c)
    ensures JobGet(cfg, s, h, Some(c)) == Some(j)
  {
    hide Find;
  }

  /** The next result, update or cancel of a job reaches all its clients, those that were told it had
      ended too. */
  lemma ToldHearsMore(cfg: Config, s: State, h: string, j: Id, e: Event)
    requires JobGet(cfg, s, h, None) == Some(j) && j in s.jobs && Enabled(cfg, s, e) && About(s, e, h, j)
    requires List(s.jobClients, j) != [] && Closed(s.out, List(s.jobClients, j)[0])
    ensures !Clean(Step(cfg, s, e).out)
  {
    hide FanOut, CancelJob, WorkResult, WorkUpdate, JobGet, Closed, Accepts, Clean, RunsOn, TakeHangs, PeekHangs,
         JobAdd,
         SubmitJob, GrabJob, Sleep, EpochFire, CleanUp, FreeWorkers, Registered, AddWorker, JobQueue, Truncate, CString;
    var cls := List(s.jobClients, j);
    match e
    case Result(c, _, k, ok) =>
      GetOwned(cfg, s, h, c, j);
      Resulted(cfg, s, c, h, k, ok, j);
      ClosedEmit(s.out, Accepted(c, j), cls[0]);
      ToldAgain(Emit(s, Accepted(c, j)), cls, j, k, 0);
    case Update(c, _, k) =>
      GetOwned(cfg, s, h, c, j);
      Updated(cfg, s, c, h, k, j);
      ToldAgain(s, cls, j, k, 0);
    case Cancel(_, ok) =>
      Canceled(cfg, s, h, ok, j);
      ToldAgain(s, cls, j, Fail, 0);
  }

  /** After a job was canceled while clients were attached, the next result, update or cancel of it reaches
      clients that were told it had ended. */
  lemma CanceledHearsMore(cfg: Config, s: State, h: string, ok: bool, j: Id, e: Event)
    requires JobGet(cfg, s, h, None) == Some(j) && j in s.jobs && List(s.jobClients, j) != []
    requires var t := CancelJob(cfg, s, h, ok); Enabled(cfg, t, e) && About(t, e, h, j)
    ensures !Clean(Step(cfg, CancelJob(cfg, s, h, ok), e).out)
  {
    hide FanOut, CancelJob, JobGet, Closed, Accepts, Clean, Step, Enabled, About;
    var t := CancelJob(cfg, s, h, ok);
    Canceled(cfg, s, h, ok, j);
    SameJobGet(cfg, s, t, h, None);
    CanceledTold(s, List(s.jobClients, j), j);
    ToldHearsMore(cfg, t, h, j, e);
  }

  lemma CanceledTold(s: State, cls: seq<Id>, j: Id)
    requires cls != []
    ensures Closed(FanOut(s, cls, j, Fail).out, cls[0])
  {
    hide FanOut, Accepts;
    FanOutTells(s, cls, j, Fail, 0);
    var out := FanOut(s, cls, j, Fail).out;
    assert out[|s.out|].Work?;
  }

  lemma Updated(cfg: Config, s: State, c: Id, h: string, kind: Kind, j: Id)
    requires JobGet(cfg, s, h, Some(c)) == Some(j) && j in s.jobs
    ensures WorkUpdate(cfg, s, c, h, kind).out == FanOut(s, List(s.jobClients, j), j, kind).out
  {
    hide JobGet, FanOut, Accepts;
  }

  // Exactly when the guarantee is kept

  ghost predicate Traced(s: State) { TraceOk(s.out, s.clients, s.jobs, s.nextClient, s.nextJob, {}) }

  lemma InvTraced(cfg: Config, s: State, x: Phase)
    requires Inv(cfg, s, x) && Steady(x) && x.traced
    ensures Traced(s)
  {
    hide ListsOk, RefsOk, CountsOk, TraceOk;
  }

  /** A client that was told and still waits, or a job that was answered and still lives, breaks it. */
  lemma NotTraced(s: State, cl: Id, j: Id)
    ensures cl in s.clients && Closed(s.out, cl) ==> !Traced(s)
    ensures j in s.jobs && Answered(s.out, j) ==> !Traced(s)
  {
    hide Closed, Answered, Clean;
  }

  /** Canceling a job keeps the guarantee exactly when nobody waits for the job. */
  lemma CancelTraced(cfg: Config, s: State, x: Phase, h: string, ok: bool, j: Id)
    requires Inv(cfg, s, x) && Steady(x) && x.traced && JobGet(cfg, s, h, None) == Some(j) && j in s.jobs
    ensures Traced(CancelJob(cfg, s, h, ok)) <==> List(s.jobClients, j) == []
  {
    hide Inv, JobGet, FanOut, CancelJob, Traced, Closed, Answered, Accepts;
    var t, cls := CancelJob(cfg, s, h, ok), List(s.jobClients, j);
    if cls == [] {
      CancelInv(cfg, s, x, h, ok);
      InvTraced(cfg, t, x);
    } else {
      Canceled(cfg, s, h, ok, j);
      CanceledTold(s, cls, j);
      HeadClient(cfg, s, x, j);
      NotTraced(t, cls[0], j);
    }
  }

  /** A result that is accepted keeps the guarantee exactly when the job leaves: when it is not in the
      persistent queue, or can be taken out of it. */
  lemma ResultTraced(cfg: Config, s: State, x: Phase, c: Id, h: string, kind: Kind, ok: bool, j: Id)
    requires Inv(cfg, s, x) && Steady(x) && x.traced && Terminal(kind) && JobGet(cfg, s, h, Some(c)) == Some(j)
               && j in s.jobs
    ensures Traced(WorkResult(cfg, s, c, h, kind, ok)) <==> !(s.jobs[j].queued && !ok)
  {
    hide Inv, JobGet, FanOut, WorkResult, Traced, Closed, Answered, Accepts, RunsOn;
    var t := WorkResult(cfg, s, c, h, kind, ok);
    if s.jobs[j].queued && !ok {
      Unstored(cfg, s, x, c, h, kind, j);
      NotTraced(t, 0, j);
    } else {
      ResultInv(cfg, s, x, c, h, kind, ok);
      InvTraced(cfg, t, x);
    }
  }

  lemma HandleShort(cfg: Config, s: State, x: Phase, h: string, owner: Option<Id>, j: Id)
    requires Inv(cfg, s, x) && JobGet(cfg, s, h, owner) == Some(j)
    ensures |h| < JOB_HANDLE_SIZE
  {
    hide ListsOk, RefsOk, CountsOk, JobGet, KeyedOk, Equal, Durable, TraceOk, Decimal;
    JobGets(cfg, s, h, owner);
    assert HandleOk(cfg, j, s.jobs[j].spec);
  }

  /** When the result cannot be stored, the job stays as it was, answered. */
  lemma Unstored(cfg: Config, s: State, x: Phase, c: Id, h: string, kind: Kind, j: Id)
    requires Inv(cfg, s, x) && JobGet(cfg, s, h, Some(c)) == Some(j) && j in s.jobs && s.jobs[j].queued
    ensures var t := WorkResult(cfg, s, c, h, kind, false);
            && t == s.(out := t.out) && t.out == FanOut(Emit(s, Accepted(c, j)), List(s.jobClients, j), j, kind).out
            && Answered(t.out, j)
  {
    hide Inv, JobGet, FanOut, Answered, Accepts;
    HandleShort(cfg, s, x, h, Some(c), j);
    AnsweredEmit(s.out, Accepted(c, j), j);
    FanOutAnswered(Emit(s, Accepted(c, j)), List(s.jobClients, j), j, kind, j);
  }

  lemma {:induction false} FanOutAnswered(s: State, cls: seq<Id>, j: Id, kind: Kind, k: Id)
    ensures Answered(FanOut(s, cls, j, kind).out, k) == Answered(s.out, k)
    decreases |cls|
  {
    hide Answered, Packet, Accepts;
    if cls != [] {
      AnsweredEmit(s.out, Packet(s, cls[0], j, kind), k);
      FanOutAnswered(Emit(s, Packet(s, cls[0], j, kind)), cls[1..], j, kind, k);
    }
  }

  /** A result that could not be stored can be sent again, and is accepted again. */
  lemma UnstoredEndsTwice(cfg: Config, s: State, x: Phase, c: Id, h: string, kind: Kind, again: Kind, ok: bool, j: Id)
    requires Inv(cfg, s, x) && JobGet(cfg, s, h, Some(c)) == Some(j) && j in s.jobs && s.jobs[j].queued
    ensures !Clean(WorkResult(cfg, WorkResult(cfg, s, c, h, kind, false), c, h, again, ok).out)
  {
    hide Inv, JobGet, FanOut, WorkResult, Answered, Accepts, Clean;
    var t := WorkResult(cfg, s, c, h, kind, false);
    Unstored(cfg, s, x, c, h, kind, j);
    HandleShort(cfg, s, x, h, Some(c), j);
    SameJobGet(cfg, s, t, h, Some(c));
    Resulted(cfg, t, c, h, again, ok, j);
    AcceptedAgain(t.out, c, j);
    FanOutUnclean(Emit(t, Accepted(c, j)), List(s.jobClients, j), j, again);
  }

  lemma AcceptedAgain(out: seq<Output>, c: Id, j: Id)
    requires Answered(out, j)
    ensures !Clean(out + [Accepted(c, j)])
  {
    var a :| 0 <= a < |out| && out[a].Accepted? && out[a].job == j;
    var all := out + [Accepted(c, j)];
    assert !Follows(all[a], all[|out|]);
  }

  lemma {:induction false} FanOutUnclean(s: State, cls: seq<Id>, j: Id, kind: Kind)
    requires !Clean(s.out)
    ensures !Clean(FanOut(s, cls, j, kind).out)
    decreases |cls|
  {
    hide Packet, Accepts, Clean;
    if cls != [] {
      var o := Packet(s, cls[0], j, kind);
      UncleanEmit(s.out, o);
      FanOutUnclean(Emit(s, o), cls[1..], j, kind);
    }
  }

  lemma UncleanEmit(out: seq<Output>, o: Output)
    requires !Clean(out)
    ensures !Clean(out + [o])
  {
    hide Follows;
    var i, k :| 0 <= i < k < |out| && !Follows(out[i], out[k]);
    var all := out + [o];
    assert !Follows(all[i], all[k]);
  }
}
