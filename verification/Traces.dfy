/** What the clients of a job hear about it. */
module Traces {
  import opened Seqs
  import opened Scheduler
  import opened Tables

  /** Client record `cl` was told how its job ended. */
  ghost predicate Closed(out: seq<Output>, cl: Id) {
    exists i :: 0 <= i < |out| && out[i].Work? && out[i].client == cl && Terminal(out[i].kind)
  }

  /** A terminal result of job `j` was accepted. */
  ghost predicate Answered(out: seq<Output>, j: Id) {
    exists i :: 0 <= i < |out| && out[i].Accepted? && out[i].job == j
  }

  /** `b` may come after `a`: no client hears of its job after a terminal packet, and no job has
      two terminal results. */
  ghost predicate Follows(a: Output, b: Output) {
    && (a.Work? && Terminal(a.kind) && b.Work? ==> a.client != b.client)
    && (a.Accepted? && b.Accepted? ==> a.job != b.job)
  }

  ghost predicate Clean(out: seq<Output>) {
    forall i, k :: 0 <= i < k < |out| ==> Follows(out[i], out[k])
  }

  ghost predicate TraceOk(out: seq<Output>, clients: map<Id, Client>, jobs: Jobs, nextClient: Id, nextJob: Id,
      spent: set<Id>) {
    && Clean(out)
    && (forall cl :: cl in clients && clients[cl].job !in spent ==> !Closed(out, cl))
    && (forall cl :: cl >= nextClient ==> !Closed(out, cl))
    && (forall j :: j in jobs && j !in spent ==> !Answered(out, j))
    && (forall j :: j >= nextJob ==> !Answered(out, j))
  }

  ghost predicate Plain(o: Output) { !o.Work? && !o.Accepted? && !o.Assign? }

  lemma ClosedEmit(out: seq<Output>, o: Output, cl: Id)
    ensures Closed(out + [o], cl) <==> Closed(out, cl) || (o.Work? && o.client == cl && Terminal(o.kind))
  {
    var out' := out + [o];
    assert forall i :: 0 <= i < |out| ==> out'[i] == out[i];
    assert out'[|out|] == o;
  }

  lemma AnsweredEmit(out: seq<Output>, o: Output, j: Id)
    ensures Answered(out + [o], j) <==> Answered(out, j) || (o.Accepted? && o.job == j)
  {
    var out' := out + [o];
    assert forall i :: 0 <= i < |out| ==> out'[i] == out[i];
    assert out'[|out|] == o;
  }

  lemma CleanEmit(out: seq<Output>, o: Output)
    requires Clean(out)
    requires o.Work? ==> !Closed(out, o.client)
    requires o.Accepted? ==> !Answered(out, o.job)
    ensures Clean(out + [o])
  {}

  lemma PlainTrace(out: seq<Output>, clients: map<Id, Client>, jobs: Jobs, nextClient: Id, nextJob: Id, spent: set<Id>,
      o: Output)
    requires TraceOk(out, clients, jobs, nextClient, nextJob, spent) && !o.Work? && !o.Accepted?
    ensures TraceOk(out + [o], clients, jobs, nextClient, nextJob, spent)
  {
    hide Clean, Closed, Answered;
    CleanEmit(out, o);
    forall cl: Id { ClosedEmit(out, o, cl); }
    forall j: Id { AnsweredEmit(out, o, j); }
  }

  lemma AcceptTrace(out: seq<Output>, clients: map<Id, Client>, jobs: Jobs, nextClient: Id, nextJob: Id, c: Id, j: Id)
    requires TraceOk(out, clients, jobs, nextClient, nextJob, {}) && j in jobs && j < nextJob
    ensures Clean(out + [Accepted(c, j)])
    ensures TraceOk(out + [Accepted(c, j)], clients, jobs, nextClient, nextJob, {j})
    ensures forall cl :: Closed(out + [Accepted(c, j)], cl) == Closed(out, cl)
  {
    hide Clean, Closed, Answered;
    CleanEmit(out, Accepted(c, j));
    forall cl: Id { ClosedEmit(out, Accepted(c, j), cl); }
    forall k: Id { AnsweredEmit(out, Accepted(c, j), k); }
  }

  lemma EmitTrace(out: seq<Output>, o: Output)
    requires Clean(out) && o.Work? && !Closed(out, o.client)
    ensures Clean(out + [o])
    ensures forall cl :: Closed(out + [o], cl) <==> Closed(out, cl) || (Terminal(o.kind) && cl == o.client)
    ensures forall k :: Answered(out + [o], k) <==> Answered(out, k)
  {
    hide Clean, Closed, Answered;
    CleanEmit(out, o);
    forall cl: Id { ClosedEmit(out, o, cl); }
    forall k: Id { AnsweredEmit(out, o, k); }
  }

  /** A packet to each of several clients that have not been told yet closes these clients, if it
      is terminal, and no others. */
  lemma {:induction false} FanOutTrace(s: State, cls: seq<Id>, j: Id, kind: Kind)
    requires Clean(s.out) && NoDup(cls) && forall cl :: cl in cls ==> !Closed(s.out, cl)
    ensures var t := FanOut(s, cls, j, kind);
            && Clean(t.out)
            && (forall cl :: Closed(t.out, cl) <==> Closed(s.out, cl) || (Terminal(kind) && cl in cls))
            && (forall k :: Answered(t.out, k) <==> Answered(s.out, k))
    decreases |cls|
  {
    hide Clean, Closed, Answered, Packet, NoDup;
    if cls != [] {
      HeadTail(cls);
      var o := Packet(s, cls[0], j, kind);
      EmitTrace(s.out, o);
      FanOutTrace(Emit(s, o), cls[1..], j, kind);
    }
  }

  lemma HeadTail(q: seq<Id>)
    requires NoDup(q) && q != []
    ensures NoDup(q[1..]) && q[0] !in q[1..]
    ensures forall x :: x in q <==> x == q[0] || x in q[1..]
  {
    assert q == [q[0]] + q[1..];
  }
}
