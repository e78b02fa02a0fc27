/** The FIFO of a function at one priority as it is in memory: a singly linked list of jobs with a
    pointer to its head (`job_list`) and one to its tail (`job_end`). */
module JobFifo {
  import opened Seqs
  import opened Scheduler

  class Node {
    const id: nat
    const when: int
    var next: Node?    // `function_next`

    constructor (id: nat, when: int)
      ensures this.id == id && this.when == when && next == null
    {
      this.id, this.when, next := id, when, null;
    }
  }

  predicate Runnable(n: Node, now: int) { n.when == 0 || n.when <= now }

  function At(q: seq<Node>, i: int): Node? { if 0 <= i < |q| then q[i] else null }

  /** A sequence closes over a gap. */
  lemma Closes(q: seq<Node>, i: nat)
    requires NoDup(q) && i < |q|
    ensures var r := RemoveAt(q, i);
            && NoDup(r) && |r| == |q| - 1
            && (forall k :: 0 <= k < |r| ==> r[k] == q[if k < i then k else k + 1])
            && (forall k: int :: At(r, k) == At(q, if k < i then k else k + 1))
  {}

  class Fifo {
    var head: Node?
    var tail: Node?
    var count: int
    ghost var nodes: seq<Node>

    /** The pointers describe the sequence of jobs. */
    ghost predicate Valid()
      reads this, nodes
    {
      && NoDup(nodes) && count == |nodes|
      && head == At(nodes, 0) && tail == At(nodes, |nodes| - 1)
      && forall i :: 0 <= i < |nodes| ==> nodes[i].next == At(nodes, i + 1)
    }

    constructor ()
      ensures Valid() && nodes == []
    {
      head, tail, count, nodes := null, null, 0, [];
    }

    /** The end of `gearman_server_job_queue`. */
    method Enqueue(n: Node)
      requires Valid() && n !in nodes
      modifies this, nodes, n
      ensures Valid() && nodes == old(nodes) + [n]
    {
      n.next := null;
      if head == null {
        head := n;
      } else {
        tail.next := n;
      }
      tail := n;
      count := count + 1;
      nodes := nodes + [n];
    }

    /** A job leaves the list, whether it is the head, the tail, both or neither. */
    method Unlink(job: Node, previous: Node, ghost i: nat)
      requires Valid() && i < |nodes| && job == nodes[i] && previous == nodes[if i == 0 then 0 else i - 1]
      modifies this, nodes
      ensures Valid() && nodes == RemoveAt(old(nodes), i)
    {
      hide RemoveAt;
      ghost var q := nodes;
      Closes(q, i);
      if head == job {
        head := job.next;
      } else {
        previous.next := job.next;
      }
      if tail == job {
        tail := if head == null then null else previous;
      }
      count := count - 1;
      nodes := RemoveAt(nodes, i);
      assert forall k :: 0 <= k < |q| ==> q[k].next == if k == i - 1 then At(q, i + 1) else At(q, k + 1);
    }

    /** The search and the unlinking in `gearman_server_job_take`: the first due job leaves the list. */
    method TakeFirstDue(now: int) returns (taken: Node?, ghost i: nat)
      requires Valid()
      modifies this, nodes
      ensures Valid() && i <= |old(nodes)| && forall k :: 0 <= k < i ==> !Runnable(old(nodes)[k], now)
      ensures taken == null <==> i == |old(nodes)|
      ensures taken == null ==> nodes == old(nodes)
      ensures taken != null ==> taken == old(nodes)[i] && Runnable(taken, now) && nodes == RemoveAt(old(nodes), i)
    {
      var job, previous := head, head;
      i := 0;
      while job != null && job.when != 0 && job.when > now
        invariant i <= |nodes| && job == At(nodes, i) && previous == At(nodes, if i == 0 then 0 else i - 1)
        invariant forall k :: 0 <= k < i ==> !Runnable(nodes[k], now)
        decreases |nodes| - i
      {
        previous := job;
        job := job.next;
        i := i + 1;
      }
      taken := job;
      if job != null { Unlink(job, previous, i); }
    }
  }

  /** The nodes are the queued jobs. */
  ghost predicate Holds(nodes: seq<Node>, jobs: map<Id, Job>, q: seq<Id>) {
    && |nodes| == |q|
    && forall i :: 0 <= i < |q| ==> nodes[i].id == q[i] && q[i] in jobs && nodes[i].when == jobs[q[i]].spec.when
  }

  /** The position `TakeFirstDue` takes from is the one the scheduler chooses. */
  lemma TakesFirstDue(nodes: seq<Node>, jobs: map<Id, Job>, q: seq<Id>, now: int, i: nat)
    requires Holds(nodes, jobs, q) && i <= |nodes| && (i < |nodes| ==> Runnable(nodes[i], now))
    requires forall k :: 0 <= k < i ==> !Runnable(nodes[k], now)
    ensures i == FirstDue(jobs, q, now)
  {
    var d := FirstDue(jobs, q, now);
    assert d < |q| ==> Runnable(nodes[d], now);
  }
}
