/** The lists of workers as they are in memory. A worker is on two of them at once: the doubly linked
    list of its connection and the doubly linked ring of its function. A link is a field of every
    worker: a map from workers to workers, updated in place. */
module WorkerLinks {
  import opened Seqs
  import opened Ownership

  type Worker = nat
  type Ptr = Option<Worker>
  type Link = map<Worker, Ptr>

  // What links say

  function At(q: seq<Worker>, i: int): Ptr { if 0 <= i < |q| then Some(q[i]) else None }

  function Succ(q: seq<Worker>, i: int): Ptr { if i + 1 < |q| then At(q, i + 1) else At(q, 0) }

  function Pred(q: seq<Worker>, i: int): Ptr { if i > 0 then At(q, i - 1) else At(q, |q| - 1) }

  ghost predicate Points(link: Link, w: Worker, to: Ptr) { w in link && link[w] == to }

  ghost predicate Linear(q: seq<Worker>, next: Link, prev: Link) {
    forall i :: 0 <= i < |q| ==> Points(next, q[i], At(q, i + 1)) && Points(prev, q[i], At(q, i - 1))
  }

  ghost predicate Ring(q: seq<Worker>, next: Link, prev: Link) {
    forall i :: 0 <= i < |q| ==> Points(next, q[i], Succ(q, i)) && Points(prev, q[i], Pred(q, i))
  }

  /** `p->link = to`, if there is a `p`. */
  function Set(link: Link, p: Ptr, to: Ptr): Link { if p.None? then link else link[p.value := to] }

  /** A sequence closes over a gap. */
  lemma Closes(q: seq<Worker>, i: nat)
    requires NoDup(q) && i < |q|
    ensures var r := RemoveAt(q, i);
            && NoDup(r) && |r| == |q| - 1
            && (forall k :: 0 <= k < |r| ==> r[k] == q[if k < i then k else k + 1])
            && (forall k: int :: At(r, k) == At(q, if k < i then k else k + 1))
  {}

  lemma CloseAt(q: seq<Worker>, i: nat, k: int)
    requires i < |q|
    ensures At(RemoveAt(q, i), k) == At(q, if k < i then k else k + 1)
  {}

  lemma Apart(q: seq<Worker>, a: int, b: int)
    requires NoDup(q)
    ensures At(q, a).Some? && At(q, a) == At(q, b) ==> a == b
  {}

  lemma LinearDelAt(q: seq<Worker>, i: nat, next: Link, prev: Link, k: nat)
    requires NoDup(q) && i < |q| && k < |q| - 1 && Linear(q, next, prev)
    ensures At(RemoveAt(q, i), k).Some?
    ensures var r := RemoveAt(q, i);
            && Points(Set(next, At(q, i - 1), At(q, i + 1)), At(r, k).value, At(r, k + 1))
            && Points(Set(prev, At(q, i + 1), At(q, i - 1)), At(r, k).value, At(r, k - 1))
  {
    hide Points, Set, RemoveAt, NoDup, Linear;
    var n := if k < i then k else k + 1;
    CloseAt(q, i, k); CloseAt(q, i, k + 1); CloseAt(q, i, k - 1);
    Apart(q, i - 1, n); Apart(q, i + 1, n);
    LinearAt(q, next, prev, n);
    SetOther(next, At(q, i - 1), At(q, i + 1), q[n], At(q, n + 1));
    SetOther(prev, At(q, i + 1), At(q, i - 1), q[n], At(q, n - 1));
  }

  lemma LinearAt(q: seq<Worker>, next: Link, prev: Link, n: nat)
    requires Linear(q, next, prev) && n < |q|
    ensures Points(next, q[n], At(q, n + 1)) && Points(prev, q[n], At(q, n - 1))
  {}

  lemma LinearDel(q: seq<Worker>, i: nat, next: Link, prev: Link)
    requires NoDup(q) && i < |q| && Linear(q, next, prev)
    ensures Linear(RemoveAt(q, i), Set(next, At(q, i - 1), At(q, i + 1)), Set(prev, At(q, i + 1), At(q, i - 1)))
  {
    hide Points, Set;
    var r := RemoveAt(q, i);
    forall k | 0 <= k < |r|
      ensures Points(Set(next, At(q, i - 1), At(q, i + 1)), r[k], At(r, k + 1))
      ensures Points(Set(prev, At(q, i + 1), At(q, i - 1)), r[k], At(r, k - 1)) {
      LinearDelAt(q, i, next, prev, k);
    }
  }

  lemma SetOther(link: Link, p: Ptr, to: Ptr, w: Worker, was: Ptr)
    requires Points(link, w, was)
    ensures Points(Set(link, p, to), w, if p == Some(w) then to else was)
  {}

  lemma LinearAdd(q: seq<Worker>, w: Worker, next: Link, prev: Link)
    requires w !in q && NoDup(q) && Linear(q, next, prev)
    ensures Linear([w] + q, next[w := At(q, 0)], Set(prev, At(q, 0), Some(w))[w := None])
  {}

  lemma LinearAppend(q: seq<Worker>, w: Worker, next: Link, prev: Link)
    requires w !in q && NoDup(q) && Linear(q, next, prev)
    ensures Linear(q + [w], Set(next, At(q, |q| - 1), Some(w))[w := None], prev[w := At(q, |q| - 1)])
  {
    hide NoDup, Linear, Set;
    var r, next', prev' := q + [w], Set(next, At(q, |q| - 1), Some(w))[w := None], prev[w := At(q, |q| - 1)];
    forall k | 0 <= k < |r| ensures Points(next', r[k], At(r, k + 1)) && Points(prev', r[k], At(r, k - 1)) {
      if k < |q| {
        LinearAt(q, next, prev, k);
        Apart(q, |q| - 1, k);
        SetOther(next, At(q, |q| - 1), Some(w), q[k], At(q, k + 1));
      }
    }
    LinearIs(r, next', prev');
  }

  lemma LinearIs(q: seq<Worker>, next: Link, prev: Link)
    requires forall k :: 0 <= k < |q| ==> Points(next, q[k], At(q, k + 1)) && Points(prev, q[k], At(q, k - 1))
    ensures Linear(q, next, prev)
  {}

  lemma RingAlone(w: Worker, next: Link, prev: Link)
    ensures Ring([w], next[w := Some(w)], prev[w := Some(w)])
  {}

  lemma RingJoin(q: seq<Worker>, w: Worker, next: Link, prev: Link)
    requires w !in q && NoDup(q) && q != [] && Ring(q, next, prev)
    ensures Ring(q + [w], next[w := Some(q[0])][q[|q| - 1] := Some(w)], prev[w := Some(q[|q| - 1])][q[0] := Some(w)])
  {}

  lemma RingLeave(q: seq<Worker>, i: nat, next: Link, prev: Link)
    requires NoDup(q) && i < |q| && |q| > 1 && Ring(q, next, prev)
    ensures Ring(RemoveAt(q, i), Set(next, Pred(q, i), Succ(q, i)), Set(prev, Succ(q, i), Pred(q, i)))
  {
    hide RemoveAt, Points, Set, Succ, Pred, NoDup;
    var r := RemoveAt(q, i);
    Closes(q, i);
    forall k | 0 <= k < |r|
      ensures Points(Set(next, Pred(q, i), Succ(q, i)), r[k], Succ(r, k))
      ensures Points(Set(prev, Succ(q, i), Pred(q, i)), r[k], Pred(r, k)) {
      var n := if k < i then k else k + 1;
      SetOther(next, Pred(q, i), Succ(q, i), q[n], Succ(q, n));
      SetOther(prev, Succ(q, i), Pred(q, i), q[n], Pred(q, n));
      LeaveAt(q, i, k);
    }
  }

  /** The neighbours of a worker once the one at position `i` is gone. */
  lemma LeaveAt(q: seq<Worker>, i: nat, k: nat)
    requires NoDup(q) && i < |q| && |q| > 1 && k < |q| - 1
    ensures var r, n := RemoveAt(q, i), if k < i then k else k + 1;
            && Succ(r, k) == (if Pred(q, i) == Some(q[n]) then Succ(q, i) else Succ(q, n))
            && Pred(r, k) == (if Succ(q, i) == Some(q[n]) then Pred(q, i) else Pred(q, n))
  {
    hide RemoveAt;
    Closes(q, i);
  }

  /** A ring may be entered anywhere. */
  lemma RingTurn(q: seq<Worker>, k: nat, next: Link, prev: Link)
    requires k <= |q| && Ring(q, next, prev)
    ensures Ring(q[k..] + q[..k], next, prev)
  {
    hide Points, Succ, Pred;
    var r := q[k..] + q[..k];
    forall i | 0 <= i < |r| ensures Points(next, r[i], Succ(r, i)) && Points(prev, r[i], Pred(r, i)) {
      TurnAt(q, k, i);
    }
  }

  lemma TurnAt(q: seq<Worker>, k: nat, i: nat)
    requires k <= |q| && i < |q|
    ensures var r, n := q[k..] + q[..k], if i < |q| - k then i + k else i + k - |q|;
            |r| == |q| && r[i] == q[n] && Succ(r, i) == Succ(q, n) && Pred(r, i) == Pred(q, n)
  {}

  // All the lists of one kind

  function HeadOf<K>(heads: map<K, Ptr>, k: K): Ptr { if k in heads then heads[k] else None }

  function CountOf<K>(counts: map<K, int>, k: K): int { if k in counts then counts[k] else 0 }

  ghost predicate ListOk(q: seq<Worker>, next: Link, prev: Link, head: Ptr, count: int) {
    NoDup(q) && Linear(q, next, prev) && head == At(q, 0) && count == |q|
  }

  ghost predicate RingOk(q: seq<Worker>, next: Link, prev: Link, head: Ptr, count: int) {
    NoDup(q) && Ring(q, next, prev) && head == At(q, 0) && count == |q|
  }

  ghost predicate ListsOk<K(!new)>(lists: map<K, seq<Worker>>, next: Link, prev: Link, heads: map<K, Ptr>,
      counts: map<K, int>) {
    forall k :: ListOk(List(lists, k), next, prev, HeadOf(heads, k), CountOf(counts, k))
  }

  ghost predicate RingsOk<K(!new)>(rings: map<K, seq<Worker>>, next: Link, prev: Link, heads: map<K, Ptr>,
      counts: map<K, int>) {
    forall k :: RingOk(List(rings, k), next, prev, HeadOf(heads, k), CountOf(counts, k))
  }

  /** Nothing of `q` is on `r`. */
  ghost predicate Disjoint(q: seq<Worker>, r: seq<Worker>) { forall w :: w in q ==> w !in r }

  lemma LinearFrame(r: seq<Worker>, next: Link, prev: Link, p: Ptr, to: Ptr)
    requires Linear(r, next, prev) && (p.Some? ==> p.value !in r)
    ensures Linear(r, Set(next, p, to), prev) && Linear(r, next, Set(prev, p, to))
  {
    hide At;
    forall i | 0 <= i < |r| ensures p != Some(r[i]) { assert r[i] in r; }
  }

  lemma RingFrame(r: seq<Worker>, next: Link, prev: Link, p: Ptr, to: Ptr)
    requires Ring(r, next, prev) && (p.Some? ==> p.value !in r)
    ensures Ring(r, Set(next, p, to), prev) && Ring(r, next, Set(prev, p, to))
  {
    hide Succ, Pred;
    forall i | 0 <= i < |r| ensures p != Some(r[i]) { assert r[i] in r; }
  }

  lemma Others<K>(owner: map<Worker, K>, lists: map<K, seq<Worker>>, k: K, l: K)
    requires Owned(owner, lists) && k != l
    ensures Disjoint(List(lists, k), List(lists, l))
  {
    forall w | w in List(lists, k) ensures w !in List(lists, l) { assert owner[w] == k; }
  }

  lemma OnlyIts(q: seq<Worker>, r: seq<Worker>, i: int)
    requires Disjoint(q, r)
    ensures At(q, i).Some? ==> At(q, i).value !in r
  {}

  lemma ListsDel<K(!new)>(owner: map<Worker, K>, lists: map<K, seq<Worker>>, next: Link, prev: Link,
      heads: map<K, Ptr>, counts: map<K, int>, k: K, i: nat)
    requires Owned(owner, lists) && ListsOk(lists, next, prev, heads, counts) && k in lists && i < |lists[k]|
    ensures var q := lists[k];
            ListsOk(lists[k := RemoveAt(q, i)], Set(next, At(q, i - 1), At(q, i + 1)),
                Set(prev, At(q, i + 1), At(q, i - 1)),
                    if i == 0 then heads[k := At(q, 1)] else heads, counts[k := |q| - 1])
  {
    hide Linear, Set, At, NoDup, RemoveAt, Owned, Disjoint;
    var q := lists[k];
    var next', prev' := Set(next, At(q, i - 1), At(q, i + 1)), Set(prev, At(q, i + 1), At(q, i - 1));
    var lists', heads', counts' := lists[k := RemoveAt(q, i)], if i == 0 then heads[k := At(q, 1)]
        else heads, counts[k := |q| - 1];
    forall l ensures ListOk(List(lists', l), next', prev', HeadOf(heads', l), CountOf(counts', l)) {
      var r := List(lists, l);
      assert ListOk(r, next, prev, HeadOf(heads, l), CountOf(counts, l));
      if l == k {
        LinearDel(q, i, next, prev);
        Closes(q, i);
        CloseAt(q, i, 0);
      } else {
        Others(owner, lists, k, l);
        OnlyIts(q, r, i - 1);
        OnlyIts(q, r, i + 1);
        LinearFrame(r, next, prev, At(q, i - 1), At(q, i + 1));
        LinearFrame(r, next', prev, At(q, i + 1), At(q, i - 1));
      }
    }
  }

  lemma ListsAdd<K(!new)>(owner: map<Worker, K>, lists: map<K, seq<Worker>>, next: Link, prev: Link,
      heads: map<K, Ptr>, counts: map<K, int>, k: K, w: Worker)
    requires Owned(owner, lists) && ListsOk(lists, next, prev, heads, counts) && w !in owner
    ensures var q := List(lists, k);
            ListsOk(lists[k := [w] + q], next[w := At(q, 0)], Set(prev, At(q, 0), Some(w))[w := None],
                heads[k := Some(w)], counts[k := |q| + 1])
  {
    hide Linear, At, NoDup, Owned, Disjoint, Set;
    var q := List(lists, k);
    var next', prev' := next[w := At(q, 0)], Set(prev, At(q, 0), Some(w))[w := None];
    var lists', heads', counts' := lists[k := [w] + q], heads[k := Some(w)], counts[k := |q| + 1];
    forall l ensures ListOk(List(lists', l), next', prev', HeadOf(heads', l), CountOf(counts', l)) {
      var r := List(lists, l);
      assert ListOk(r, next, prev, HeadOf(heads, l), CountOf(counts, l));
      Fresh(owner, lists, l, w);
      if l == k {
        LinearAdd(q, w, next, prev);
        AppendKeeps(q, w);
        First(w, q);
      } else {
        Others(owner, lists, k, l);
        OnlyIts(q, r, 0);
        LinearFrame(r, next, prev, Some(w), At(q, 0));
        SetAt(next, w, At(q, 0));
        LinearFrame(r, next', prev, At(q, 0), Some(w));
        LinearFrame(r, next', Set(prev, At(q, 0), Some(w)), Some(w), None);
        SetAt(Set(prev, At(q, 0), Some(w)), w, None);
      }
    }
  }

  lemma SetAt(link: Link, w: Worker, to: Ptr)
    ensures Set(link, Some(w), to) == link[w := to]
  {}

  lemma First(w: Worker, q: seq<Worker>)
    ensures At([w] + q, 0) == Some(w)
    ensures At(q + [w], 0) == if q == [] then Some(w) else At(q, 0)
  {}

  lemma Fresh<K>(owner: map<Worker, K>, lists: map<K, seq<Worker>>, k: K, w: Worker)
    requires Owned(owner, lists) && w !in owner
    ensures w !in List(lists, k)
  {}

  lemma ListsAppend<K(!new)>(owner: map<Worker, K>, lists: map<K, seq<Worker>>, next: Link, prev: Link,
      heads: map<K, Ptr>, counts: map<K, int>, k: K, w: Worker)
    requires Owned(owner, lists) && ListsOk(lists, next, prev, heads, counts) && w !in owner
    ensures var q := List(lists, k); var tail := At(q, |q| - 1);
            ListsOk(lists[k := q + [w]], Set(next, tail, Some(w))[w := None], prev[w := tail],
                    if q == [] then heads[k := Some(w)] else heads, counts[k := |q| + 1])
  {
    hide Linear, At, NoDup, Owned, Disjoint, Set;
    var q := List(lists, k);
    var tail := At(q, |q| - 1);
    var next', prev' := Set(next, tail, Some(w))[w := None], prev[w := tail];
    var heads' := if q == [] then heads[k := Some(w)] else heads;
    var lists', counts' := lists[k := q + [w]], counts[k := |q| + 1];
    forall l ensures ListOk(List(lists', l), next', prev', HeadOf(heads', l), CountOf(counts', l)) {
      var r := List(lists, l);
      assert ListOk(r, next, prev, HeadOf(heads, l), CountOf(counts, l));
      Fresh(owner, lists, l, w);
      if l == k {
        LinearAppend(q, w, next, prev);
        AppendKeeps(q, w);
        First(w, q);
      } else {
        Others(owner, lists, k, l);
        OnlyIts(q, r, |q| - 1);
        LinearFrame(r, next, prev, tail, Some(w));
        LinearFrame(r, Set(next, tail, Some(w)), prev, Some(w), None);
        SetAt(Set(next, tail, Some(w)), w, None);
        LinearFrame(r, next', prev, Some(w), tail);
        SetAt(prev, w, tail);
      }
    }
  }

  lemma RingsJoin<K(!new)>(owner: map<Worker, K>, rings: map<K, seq<Worker>>, next: Link, prev: Link,
      heads: map<K, Ptr>, counts: map<K, int>, k: K, w: Worker)
    requires Owned(owner, rings) && RingsOk(rings, next, prev, heads, counts) && w !in owner && List(rings, k) != []
    ensures var q := rings[k]; var first, last := q[0], q[|q| - 1];
            RingsOk(rings[k := q + [w]], next[w := Some(first)][last := Some(w)],
                prev[w := Some(last)][first := Some(w)], heads, counts[k := |q| + 1])
  {
    hide Ring, At, NoDup, Owned, Disjoint, Set;
    var q := rings[k];
    var first, last := q[0], q[|q| - 1];
    var next', prev' := next[w := Some(first)][last := Some(w)], prev[w := Some(last)][first := Some(w)];
    var rings', counts' := rings[k := q + [w]], counts[k := |q| + 1];
    forall l ensures RingOk(List(rings', l), next', prev', HeadOf(heads, l), CountOf(counts', l)) {
      var r := List(rings, l);
      assert RingOk(r, next, prev, HeadOf(heads, l), CountOf(counts, l));
      Fresh(owner, rings, l, w);
      if l == k {
        RingJoin(q, w, next, prev);
        AppendKeeps(q, w);
        First(w, q);
      } else {
        Others(owner, rings, k, l);
        Ends(q, r);
        RingFrame(r, next, prev, Some(w), Some(first));
        SetAt(next, w, Some(first));
        RingFrame(r, next[w := Some(first)], prev, Some(last), Some(w));
        SetAt(next[w := Some(first)], last, Some(w));
        RingFrame(r, next', prev, Some(w), Some(last));
        SetAt(prev, w, Some(last));
        RingFrame(r, next', prev[w := Some(last)], Some(first), Some(w));
        SetAt(prev[w := Some(last)], first, Some(w));
      }
    }
  }

  lemma Ends(q: seq<Worker>, r: seq<Worker>)
    requires q != [] && Disjoint(q, r)
    ensures q[0] !in r && q[|q| - 1] !in r
  {}

  lemma RingsStart<K(!new)>(owner: map<Worker, K>, rings: map<K, seq<Worker>>, next: Link, prev: Link,
      heads: map<K, Ptr>, counts: map<K, int>, k: K, w: Worker)
    requires Owned(owner, rings) && RingsOk(rings, next, prev, heads, counts) && w !in owner && List(rings, k) == []
    ensures RingsOk(rings[k := [w]], next[w := Some(w)], prev[w := Some(w)], heads[k := Some(w)], counts[k := 1])
  {
    hide Ring, Owned, Set;
    var next', prev' := next[w := Some(w)], prev[w := Some(w)];
    var rings', heads', counts' := rings[k := [w]], heads[k := Some(w)], counts[k := 1];
    forall l ensures RingOk(List(rings', l), next', prev', HeadOf(heads', l), CountOf(counts', l)) {
      var r := List(rings, l);
      assert RingOk(r, next, prev, HeadOf(heads, l), CountOf(counts, l));
      Fresh(owner, rings, l, w);
      if l == k {
        RingAlone(w, next, prev);
      } else {
        RingFrame(r, next, prev, Some(w), Some(w));
        SetAt(next, w, Some(w));
        RingFrame(r, next', prev, Some(w), Some(w));
        SetAt(prev, w, Some(w));
      }
    }
  }

  lemma RingsLeave<K(!new)>(owner: map<Worker, K>, rings: map<K, seq<Worker>>, next: Link, prev: Link,
      heads: map<K, Ptr>, counts: map<K, int>, k: K, i: nat)
    requires Owned(owner, rings) && RingsOk(rings, next, prev, heads, counts) && k in rings && i < |rings[k]|
               && |rings[k]| > 1
    ensures var q := rings[k];
            RingsOk(rings[k := RemoveAt(q, i)], Set(next, Pred(q, i), Succ(q, i)), Set(prev, Succ(q, i), Pred(q, i)),
                    if i == 0 then heads[k := Succ(q, 0)] else heads, counts[k := |q| - 1])
  {
    hide Ring, Set, NoDup, RemoveAt, Owned, Disjoint;
    var q := rings[k];
    var next', prev' := Set(next, Pred(q, i), Succ(q, i)), Set(prev, Succ(q, i), Pred(q, i));
    var rings', heads', counts' := rings[k := RemoveAt(q, i)], if i == 0 then heads[k := Succ(q, 0)]
        else heads, counts[k := |q| - 1];
    forall l ensures RingOk(List(rings', l), next', prev', HeadOf(heads', l), CountOf(counts', l)) {
      var r := List(rings, l);
      assert RingOk(r, next, prev, HeadOf(heads, l), CountOf(counts, l));
      if l == k {
        RingLeave(q, i, next, prev);
        Closes(q, i);
        CloseAt(q, i, 0);
      } else {
        Others(owner, rings, k, l);
        OnlyIts(q, r, i - 1); OnlyIts(q, r, i + 1); OnlyIts(q, r, 0); OnlyIts(q, r, |q| - 1);
        RingFrame(r, next, prev, Pred(q, i), Succ(q, i));
        RingFrame(r, next', prev, Succ(q, i), Pred(q, i));
      }
    }
  }

  lemma RingsEmpty<K(!new)>(rings: map<K, seq<Worker>>, next: Link, prev: Link, heads: map<K, Ptr>,
      counts: map<K, int>, k: K)
    requires RingsOk(rings, next, prev, heads, counts) && k in rings && |rings[k]| == 1
    ensures RingsOk(rings[k := RemoveAt(rings[k], 0)], next, prev, heads[k := None], counts[k := 0])
  {
    hide Ring;
    var rings', heads', counts' := rings[k := RemoveAt(rings[k], 0)], heads[k := None], counts[k := 0];
    forall l ensures RingOk(List(rings', l), next, prev, HeadOf(heads', l), CountOf(counts', l)) {
      assert RingOk(List(rings, l), next, prev, HeadOf(heads, l), CountOf(counts, l));
      EmptyRing(next, prev);
    }
  }

  lemma RingsTurn<K(!new)>(owner: map<Worker, K>, rings: map<K, seq<Worker>>, next: Link, prev: Link,
      heads: map<K, Ptr>, counts: map<K, int>, k: K, i: nat)
    requires Owned(owner, rings) && RingsOk(rings, next, prev, heads, counts) && k in rings && 0 < i <= |rings[k]|
    ensures var q := rings[k]; var rings' := rings[k := q[i..] + q[..i]];
            Owned(owner, rings') && RingsOk(rings', next, prev, heads[k := Succ(q, i - 1)], counts)
  {
    hide Ring;
    var q := rings[k];
    var r := q[i..] + q[..i];
    Turned(q, i);
    OwnedTurn(owner, rings, k, r);
    hide Owned;
    var heads' := heads[k := Succ(q, i - 1)];
    forall l ensures RingOk(List(rings[k := r], l), next, prev, HeadOf(heads', l), CountOf(counts, l)) {
      assert RingOk(List(rings, l), next, prev, HeadOf(heads, l), CountOf(counts, l));
      RingTurn(q, i, next, prev);
    }
  }

  lemma Turned(q: seq<Worker>, i: nat)
    requires NoDup(q) && 0 < i <= |q|
    ensures Reordered(q, q[i..] + q[..i]) && At(q[i..] + q[..i], 0) == Succ(q, i - 1)
  {
    var r := q[i..] + q[..i];
    assert q == q[..i] + q[i..];
    assert forall k :: 0 <= k < |r| ==> r[k] == if k < |q| - i then q[k + i] else q[k + i - |q|];
  }

  lemma EmptyRing(next: Link, prev: Link)
    ensures Ring([], next, prev)
  {}

  // The lists in place

  type Con = nat
  type Name = string

  /** The connections of workers. */
  function Hosts(conOf: map<Worker, Con>, ws: seq<Worker>): set<Con> { set w | w in ws && w in conOf :: conOf[w] }

  /** `k` workers of the ring `q` are visited when at most `limit` connections (0: any number) are
      to be woken: enough, or all, and not one too many. */
  ghost predicate Enough(conOf: map<Worker, Con>, q: seq<Worker>, dozing: set<Con>, limit: nat, k: nat) {
    && k <= |q| && (k == 0 ==> q == [])
    && (k == |q| || (limit != 0 && |dozing * Hosts(conOf, q[..k])| >= limit))
    && forall m :: 0 < m < k ==> limit == 0 || |dozing * Hosts(conOf, q[..m])| < limit
  }

  /** `k` workers were visited, and were not too many. */
  ghost predicate Visited(conOf: map<Worker, Con>, q: seq<Worker>, dozing: set<Con>, limit: nat, k: nat,
      woken: set<Con>) {
    && k <= |q| && woken == dozing * Hosts(conOf, q[..k])
    && forall m :: 0 < m < k ==> limit == 0 || |dozing * Hosts(conOf, q[..m])| < limit
  }

  lemma VisitNone(conOf: map<Worker, Con>, q: seq<Worker>, dozing: set<Con>, limit: nat)
    ensures Visited(conOf, q, dozing, limit, 0, {})
  {}

  lemma Visit(conOf: map<Worker, Con>, q: seq<Worker>, dozing: set<Con>, limit: nat, k: nat, woken: set<Con>)
    requires Visited(conOf, q, dozing, limit, k, woken) && k < |q| && q[k] in conOf
    requires k == 0 || limit == 0 || |woken| < limit
    ensures var c := conOf[q[k]];
            Visited(conOf, q, dozing, limit, k + 1, if c in dozing && c !in woken then woken + {c} else woken)
  {
    hide Hosts;
    HostsNext(conOf, q, k);
    var c := conOf[q[k]];
    assert dozing * (Hosts(conOf, q[..k]) + {c}) == if c in dozing && c !in woken then woken + {c} else woken;
  }

  lemma HostsNext(conOf: map<Worker, Con>, q: seq<Worker>, k: nat)
    requires k < |q| && q[k] in conOf
    ensures Hosts(conOf, q[..k + 1]) == Hosts(conOf, q[..k]) + {conOf[q[k]]}
  {
    assert q[..k + 1] == q[..k] + [q[k]];
  }

  lemma NobodyHere(conOf: map<Worker, Con>, q: seq<Worker>, dozing: set<Con>, limit: nat)
    requires q == []
    ensures Enough(conOf, q, dozing, limit, 0) && dozing * Hosts(conOf, q[..0]) == {}
  {}

  lemma Stopped(conOf: map<Worker, Con>, q: seq<Worker>, dozing: set<Con>, limit: nat, k: nat, woken: set<Con>)
    requires Visited(conOf, q, dozing, limit, k, woken) && k > 0 && (k == |q| || (limit != 0 && |woken| >= limit))
    ensures Enough(conOf, q, dozing, limit, k) && woken == dozing * Hosts(conOf, q[..k])
  {}

  lemma Next(q: seq<Worker>, k: nat)
    requires k < |q|
    ensures q[k] in q && (k > 0 ==> Succ(q, k - 1) == Some(q[k])) && At(q, 0) == Some(q[0])
  {}

  lemma Back(q: seq<Worker>, k: nat)
    requires NoDup(q) && 0 < k <= |q|
    ensures Succ(q, k - 1) == At(q, 0) <==> k == |q|
  {}

  class Registry {
    var conOf: map<Worker, Con>
    var fnOf: map<Worker, Name>
    var conNext: Link
    var conPrev: Link
    var fnNext: Link
    var fnPrev: Link
    var conList: map<Con, Ptr>
    var conCount: map<Con, int>
    var fnList: map<Name, Ptr>
    var fnCount: map<Name, int>
    ghost var workers: map<Con, seq<Worker>>
    ghost var rings: map<Name, seq<Worker>>

    ghost predicate ConsOk()
      reads this
    {
      Owned(conOf, workers) && ListsOk(workers, conNext, conPrev, conList, conCount)
    }

    ghost predicate FnsOk()
      reads this
    {
      Owned(fnOf, rings) && RingsOk(rings, fnNext, fnPrev, fnList, fnCount)
    }

    /** Every worker is on the list of its connection and on the ring of its function, once, and the
        links, heads and counts say so. */
    ghost predicate Valid()
      reads this
    {
      ConsOk() && FnsOk() && conOf.Keys == fnOf.Keys
    }

    constructor ()
      ensures Valid() && workers == map[] && rings == map[]
    {
      conOf, fnOf, conNext, conPrev, fnNext, fnPrev := map[], map[], map[], map[], map[], map[];
      conList, conCount, fnList, fnCount, workers, rings := map[], map[], map[], map[], map[], map[];
    }

    /** `GEARMAND_LIST_ADD` on the list of a connection. */
    method Add(c: Con, w: Worker)
      requires ConsOk() && w !in conOf
      modifies this`conOf, this`conNext, this`conPrev, this`conList, this`conCount, this`workers
      ensures ConsOk() && workers == old(workers)[c := [w] + List(old(workers), c)] && conOf == old(conOf)[w := c]
    {
      hide Owned, ListsOk;
      ghost var q := List(workers, c);
      ListsAdd(conOf, workers, conNext, conPrev, conList, conCount, c, w);
      OwnedAdd(conOf, workers, w, c);
      Ends1(workers, conNext, conPrev, conList, conCount, c);
      var head := HeadOf(conList, c);
      if head.Some? { conPrev := conPrev[head.value := Some(w)]; }
      conNext := conNext[w := head];
      conPrev := conPrev[w := None];
      conList := conList[c := Some(w)];
      conCount := conCount[c := CountOf(conCount, c) + 1];
      conOf := conOf[w := c];
      workers := workers[c := [w] + q];
    }

    /** `GEARMAND_LIST_DEL` on the list of a connection. */
    method Del(w: Worker, ghost i: nat)
      requires ConsOk() && w in conOf && i < |List(workers, conOf[w])| && workers[conOf[w]][i] == w
      modifies this`conOf, this`conNext, this`conPrev, this`conList, this`conCount, this`workers
      ensures ConsOk() && conOf == old(conOf) - {w}
      ensures var c := old(conOf)[w]; workers == old(workers)[c := RemoveAt(old(workers)[c], i)]
    {
      hide Owned, ListsOk, RemoveAt;
      var c := conOf[w];
      ghost var q := workers[c];
      ListsDel(conOf, workers, conNext, conPrev, conList, conCount, c, i);
      OwnedDelAt(conOf, workers, c, i);
      Ends1(workers, conNext, conPrev, conList, conCount, c);
      Around(workers, conNext, conPrev, conList, conCount, c, i);
      var next, prev := conNext[w], conPrev[w];
      if HeadOf(conList, c) == Some(w) { conList := conList[c := next]; }
      if prev.Some? { conNext := conNext[prev.value := next]; }
      if next.Some? { conPrev := conPrev[next.value := prev]; }
      conCount := conCount[c := CountOf(conCount, c) - 1];
      conOf := conOf - {w};
      workers := workers[c := RemoveAt(q, i)];
    }

    /** The walk of `_server_con_worker_list_append` to the end of a list. */
    method Last(c: Con) returns (prev: Ptr)
      requires ConsOk()
      ensures prev == At(List(workers, c), |List(workers, c)| - 1)
    {
      hide Owned, ListsOk;
      ghost var q := List(workers, c);
      Ends1(workers, conNext, conPrev, conList, conCount, c);
      prev := None;
      var next := HeadOf(conList, c);
      ghost var i := 0;
      while next.Some?
        invariant i <= |q| && next == At(q, i) && prev == At(q, i - 1)
        decreases |q| - i
      {
        Around(workers, conNext, conPrev, conList, conCount, c, i);
        prev := next;
        next := conNext[next.value];
        i := i + 1;
      }
    }

    /** `_server_con_worker_list_append`, with what `gearman_server_job_take` does around it. */
    method Append(c: Con, w: Worker)
      requires ConsOk() && w !in conOf
      modifies this`conOf, this`conNext, this`conPrev, this`conList, this`conCount, this`workers
      ensures ConsOk() && workers == old(workers)[c := List(old(workers), c) + [w]] && conOf == old(conOf)[w := c]
    {
      hide Owned, ListsOk;
      ghost var q := List(workers, c);
      ListsAppend(conOf, workers, conNext, conPrev, conList, conCount, c, w);
      OwnedAdd(conOf, workers, w, c);
      Ends1(workers, conNext, conPrev, conList, conCount, c);
      var prev := Last(c);
      if prev.Some? { conNext := conNext[prev.value := Some(w)]; }
      conNext := conNext[w := None];
      conPrev := conPrev[w := prev];
      conCount := conCount[c := CountOf(conCount, c) + 1];
      if HeadOf(conList, c).None? { conList := conList[c := Some(w)]; }
      conOf := conOf[w := c];
      workers := workers[c := q + [w]];
    }

    /** The round robin of `gearman_server_job_take`: a worker goes to the end of its list. */
    method MoveToEnd(w: Worker, ghost i: nat)
      requires ConsOk() && w in conOf && i < |List(workers, conOf[w])| && workers[conOf[w]][i] == w
      modifies this`conOf, this`conNext, this`conPrev, this`conList, this`conCount, this`workers
      ensures ConsOk() && conOf == old(conOf)
      ensures var c := old(conOf)[w]; var q := old(workers)[c]; workers == old(workers)[c := RemoveAt(q, i) + [w]]
    {
      hide Owned, ListsOk, RemoveAt;
      var c := conOf[w];
      Del(w, i);
      Append(c, w);
      assert conOf == old(conOf);
    }

    /** The second half of `gearman_server_worker_create`: last on the ring of the function. */
    method Join(f: Name, w: Worker)
      requires FnsOk() && w !in fnOf
      modifies this`fnOf, this`fnNext, this`fnPrev, this`fnList, this`fnCount, this`rings
      ensures FnsOk() && rings == old(rings)[f := List(old(rings), f) + [w]] && fnOf == old(fnOf)[w := f]
    {
      hide Owned, RingsOk;
      ghost var q := List(rings, f);
      OwnedAdd(fnOf, rings, w, f);
      Ends2(rings, fnNext, fnPrev, fnList, fnCount, f);
      if HeadOf(fnList, f).None? {
        RingsStart(fnOf, rings, fnNext, fnPrev, fnList, fnCount, f, w);
        fnList := fnList[f := Some(w)];
        fnNext := fnNext[w := Some(w)];
        fnPrev := fnPrev[w := Some(w)];
        assert q + [w] == [w];
      } else {
        RingsJoin(fnOf, rings, fnNext, fnPrev, fnList, fnCount, f, w);
        Around2(rings, fnNext, fnPrev, fnList, fnCount, f, 0);
        var head := HeadOf(fnList, f).value;
        var last := fnPrev[head].value;
        fnNext := fnNext[w := Some(head)];
        fnPrev := fnPrev[w := Some(last)];
        fnPrev := fnPrev[head := Some(w)];
        fnNext := fnNext[last := Some(w)];
      }
      fnCount := fnCount[f := CountOf(fnCount, f) + 1];
      fnOf := fnOf[w := f];
      rings := rings[f := q + [w]];
    }

    /** The second half of `gearman_server_worker_free`. */
    method Leave(w: Worker, ghost i: nat)
      requires FnsOk() && w in fnOf && i < |List(rings, fnOf[w])| && rings[fnOf[w]][i] == w
      modifies this`fnOf, this`fnNext, this`fnPrev, this`fnList, this`fnCount, this`rings
      ensures FnsOk() && fnOf == old(fnOf) - {w}
      ensures var f := old(fnOf)[w]; rings == old(rings)[f := RemoveAt(old(rings)[f], i)]
    {
      hide Owned, RingsOk, RemoveAt;
      var f := fnOf[w];
      ghost var q := rings[f];
      OwnedDelAt(fnOf, rings, f, i);
      Ends2(rings, fnNext, fnPrev, fnList, fnCount, f);
      Around2(rings, fnNext, fnPrev, fnList, fnCount, f, i);
      var next, prev := fnNext[w].value, fnPrev[w].value;
      if w == next {
        RingsEmpty(rings, fnNext, fnPrev, fnList, fnCount, f);
        fnList := fnList[f := None];
      } else {
        RingsLeave(fnOf, rings, fnNext, fnPrev, fnList, fnCount, f, i);
        fnPrev := fnPrev[next := Some(prev)];
        fnNext := fnNext[prev := Some(next)];
        if HeadOf(fnList, f) == Some(w) { fnList := fnList[f := Some(next)]; }
      }
      fnCount := fnCount[f := CountOf(fnCount, f) - 1];
      fnOf := fnOf - {w};
      rings := rings[f := RemoveAt(q, i)];
    }

    /** The NOOP loop of `gearman_server_job_queue` for function `f`, with the connections that sleep
        and were not told: it goes round the ring and leaves the head where it stops. */
    method Rouse(f: Name, dozing: set<Con>, limit: nat) returns (woken: set<Con>, ghost k: nat)
      requires Valid()
      modifies this`fnList, this`rings
      ensures Valid() && Enough(conOf, List(old(rings), f), dozing, limit, k)
      ensures woken == dozing * Hosts(conOf, List(old(rings), f)[..k])
      ensures Only(old(rings), rings, f, List(old(rings), f)[k..] + List(old(rings), f)[..k])
    {
      hide Owned, ListsOk, RingsOk, NoDup, Visited, Enough, Hosts, Succ;
      ghost var q := List(rings, f);
      VisitNone(conOf, q, dozing, limit);
      Ends2(rings, fnNext, fnPrev, fnList, fnCount, f);
      woken, k := {}, 0;
      var sent, head := 0, HeadOf(fnList, f);
      if head.None? {
        NobodyHere(conOf, q, dozing, limit);
      } else {
        var worker, more := head.value, true;
        while more
          invariant k <= |q| && Visited(conOf, q, dozing, limit, k, woken) && sent == |woken|
          invariant if k == 0 then At(q, 0) == Some(worker) else Succ(q, k - 1) == Some(worker)
          invariant more <==> k == 0 || (k < |q| && (limit == 0 || sent < limit))
          decreases |q| - k, more
          modifies {}
        {
          Next(q, k);
          Mine(fnOf, rings, f, worker);
          Around2(rings, fnNext, fnPrev, fnList, fnCount, f, k);
          Visit(conOf, q, dozing, limit, k, woken);
          if conOf[worker] in dozing && conOf[worker] !in woken {
            woken := woken + {conOf[worker]};
            sent := sent + 1;
          }
          worker := fnNext[worker].value;
          k := k + 1;
          Back(q, k);
          more := Some(worker) != head && (limit == 0 || sent < limit);
        }
        Stopped(conOf, q, dozing, limit, k, woken);
        RingsTurn(fnOf, rings, fnNext, fnPrev, fnList, fnCount, f, k);
        fnList := fnList[f := Some(worker)];
        rings := rings[f := q[k..] + q[..k]];
      }
    }

    /** `gearman_server_worker_create` */
    method Create(c: Con, f: Name, w: Worker)
      requires Valid() && w !in conOf
      modifies this
      ensures Valid()
      ensures workers == old(workers)[c := [w] + List(old(workers), c)]
                && rings == old(rings)[f := List(old(rings), f) + [w]]
      ensures conOf == old(conOf)[w := c] && fnOf == old(fnOf)[w := f]
    {
      hide Owned, ListsOk, RingsOk;
      Add(c, w);
      Join(f, w);
    }

    /** `gearman_server_worker_free`, once the worker runs nothing. */
    method Free(w: Worker)
      requires Valid() && w in conOf
      modifies this
      ensures Valid() && conOf == old(conOf) - {w} && fnOf == old(fnOf) - {w}
      ensures var c, f := old(conOf)[w], old(fnOf)[w];
              && workers == old(workers)[c := Remove(List(old(workers), c), w)]
              && rings == old(rings)[f := Remove(List(old(rings), f), w)]
    {
      hide Owned, ListsOk, RingsOk, RemoveAt, Remove;
      Listed(conOf, workers, w);
      Listed(fnOf, rings, w);
      ghost var i := Locate(workers[conOf[w]], w);
      ghost var k := Locate(rings[fnOf[w]], w);
      Del(w, i);
      Leave(w, k);
    }

    /** `gearman_server_con_free_worker`: the loop over a list that it shrinks. After each removal it
        goes on from the last worker it kept. */
    method FreeByName(c: Con, f: Name)
      requires Valid()
      modifies this
      ensures Valid()
      ensures Only(old(workers), workers, c, Except(old(fnOf), f, List(old(workers), c)))
      ensures Only(old(rings), rings, f, Except(old(conOf), c, List(old(rings), f)))
    {
      hide Owned, ListsOk, RingsOk, Remove, RemoveAt, Except;
      ghost var fns, cons := fnOf, conOf;
      ghost var k: nat, m: nat := 0, 0;
      Ends1(workers, conNext, conPrev, conList, conCount, c);
      var worker, kept := HeadOf(conList, c), None;
      while worker.Some?
        invariant Valid() && worker == At(List(workers, c), m) && kept == At(List(workers, c), k - 1)
        invariant Progress(k, m, |List(workers, c)|)
        invariant Only(old(workers), workers, c, List(workers, c)) && Only(old(rings), rings, f, List(rings, f))
        invariant Except(fns, f, List(workers, c)) == Except(fns, f, List(old(workers), c))
        invariant Except(cons, c, List(rings, f)) == Except(cons, c, List(old(rings), f))
        invariant Within(fnOf, fns) && Within(conOf, cons)
        invariant Cleared(fns, f, List(workers, c), k)
        decreases |List(workers, c)| - k, k - m
      {
        Mine(conOf, workers, c, worker.value);
        if fnOf[worker.value] == f {
          ghost var q, r := List(workers, c), List(rings, f);
          Ends1(workers, conNext, conPrev, conList, conCount, c);
          Shrunk(fns, f, q, k, m, worker.value);
          Free(worker.value);
          ExceptRemove(fns, f, q, worker.value);
          ExceptRemove(cons, c, r, worker.value);
          Ends1(workers, conNext, conPrev, conList, conCount, c);
          if kept.None? {
            worker := HeadOf(conList, c);
            m := 0;
          } else {
            worker := kept;
            m := k - 1;
          }
        } else {
          Around(workers, conNext, conPrev, conList, conCount, c, m);
          kept := worker;
          worker := conNext[worker.value];
          Passed(fns, f, List(workers, c), k, m);
          m := m + 1;
          k := m;
        }
      }
      ExceptNone(fns, f, List(workers, c));
      NoneHere(conOf, cons, fnOf, fns, workers, rings, c, f);
      ExceptNone(cons, c, List(rings, f));
    }
  }

  /** Only the list of `c` changed, to `q`. */
  ghost predicate Only<K(!new)>(before: map<K, seq<Worker>>, after: map<K, seq<Worker>>, c: K, q: seq<Worker>) {
    forall d :: List(after, d) == if d == c then q else List(before, d)
  }

  /** What of `q` does not belong to `k`, in order. */
  function Except<K(==)>(owner: map<Worker, K>, k: K, q: seq<Worker>): seq<Worker> {
    if q == [] then []
    else if q[0] in owner && owner[q[0]] == k then Except(owner, k, q[1..])
    else [q[0]] + Except(owner, k, q[1..])
  }

  ghost predicate Progress(k: nat, m: nat, n: nat) { k <= n && (m == k || m + 1 == k) }

  ghost predicate Within<K>(a: map<Worker, K>, b: map<Worker, K>) { forall w :: w in a ==> w in b && a[w] == b[w] }

  /** The first `k` of `q` do not belong to `f`. */
  ghost predicate Cleared<K>(owner: map<Worker, K>, f: K, q: seq<Worker>, k: nat) {
    forall i :: 0 <= i < k && i < |q| ==> !(q[i] in owner && owner[q[i]] == f)
  }

  lemma Listed<K>(owner: map<Worker, K>, lists: map<K, seq<Worker>>, w: Worker)
    requires Owned(owner, lists) && w in owner
    ensures owner[w] in lists && w in lists[owner[w]]
  {}

  lemma Ends1<K(!new)>(lists: map<K, seq<Worker>>, next: Link, prev: Link, heads: map<K, Ptr>, counts: map<K, int>,
      k: K)
    requires ListsOk(lists, next, prev, heads, counts)
    ensures HeadOf(heads, k) == At(List(lists, k), 0) && CountOf(counts, k) == |List(lists, k)| && NoDup(List(lists, k))
  {
    assert ListOk(List(lists, k), next, prev, HeadOf(heads, k), CountOf(counts, k));
  }

  lemma Ends2<K(!new)>(rings: map<K, seq<Worker>>, next: Link, prev: Link, heads: map<K, Ptr>, counts: map<K, int>,
      k: K)
    requires RingsOk(rings, next, prev, heads, counts)
    ensures HeadOf(heads, k) == At(List(rings, k), 0) && CountOf(counts, k) == |List(rings, k)| && NoDup(List(rings, k))
  {
    assert RingOk(List(rings, k), next, prev, HeadOf(heads, k), CountOf(counts, k));
  }

  lemma Around<K(!new)>(lists: map<K, seq<Worker>>, next: Link, prev: Link, heads: map<K, Ptr>, counts: map<K, int>,
      k: K, i: nat)
    requires ListsOk(lists, next, prev, heads, counts) && i < |List(lists, k)|
    ensures var q := List(lists, k);
            Points(next, q[i], At(q, i + 1)) && Points(prev, q[i], At(q, i - 1)) && (At(q, 0) == Some(q[i]) <==> i == 0)
  {
    assert ListOk(List(lists, k), next, prev, HeadOf(heads, k), CountOf(counts, k));
  }

  lemma Around2<K(!new)>(rings: map<K, seq<Worker>>, next: Link, prev: Link, heads: map<K, Ptr>, counts: map<K, int>,
      k: K, i: nat)
    requires RingsOk(rings, next, prev, heads, counts) && i < |List(rings, k)|
    ensures var q := List(rings, k);
            && Points(next, q[i], Succ(q, i)) && Points(prev, q[i], Pred(q, i)) && Succ(q, i).Some? && Pred(q, i).Some?
            && (At(q, 0) == Some(q[i]) <==> i == 0) && (Succ(q, i) == Some(q[i]) <==> |q| == 1)
  {
    assert RingOk(List(rings, k), next, prev, HeadOf(heads, k), CountOf(counts, k));
  }

  /** A worker of the function is at a place not yet passed, and its removal changes nothing before. */
  lemma Shrunk(fns: map<Worker, Name>, f: Name, q: seq<Worker>, k: nat, m: nat, w: Worker)
    requires NoDup(q) && At(q, m) == Some(w) && Progress(k, m, |q|) && Cleared(fns, f, q, k) && w in fns && fns[w] == f
    ensures m == k < |q|
    ensures var r := Remove(q, w); |r| == |q| - 1 && At(r, k - 1) == At(q, k - 1) && Cleared(fns, f, r, k)
  {
    var i := Locate(q, w);
    hide Remove;
    assert m == k;
    assert i == k;
    CloseAt(q, i, k - 1);
  }

  lemma Passed(fns: map<Worker, Name>, f: Name, q: seq<Worker>, k: nat, m: nat)
    requires Progress(k, m, |q|) && Cleared(fns, f, q, k) && m < |q| && !(q[m] in fns && fns[q[m]] == f)
    ensures Progress(m + 1, m + 1, |q|) && Cleared(fns, f, q, m + 1)
  {}

  /** With none of the function left on the connection, none of the connection is left on the ring. */
  lemma NoneHere(conOf: map<Worker, Con>, cons: map<Worker, Con>, fnOf: map<Worker, Name>, fns: map<Worker, Name>,
                 workers: map<Con, seq<Worker>>, rings: map<Name, seq<Worker>>, c: Con, f: Name)
    requires Owned(conOf, workers) && Owned(fnOf, rings) && conOf.Keys == fnOf.Keys && Within(conOf, cons)
               && Within(fnOf, fns)
    requires Cleared(fns, f, List(workers, c), |List(workers, c)|)
    ensures Cleared(cons, c, List(rings, f), |List(rings, f)|)
  {
    var q, r := List(workers, c), List(rings, f);
    forall i | 0 <= i < |r| ensures !(r[i] in cons && cons[r[i]] == c) {
      var w := r[i];
      assert w in r;
      assert fns[w] == f && w !in q;
      assert w in conOf && conOf[w] != c;
    }
  }

  lemma Mine<K>(owner: map<Worker, K>, lists: map<K, seq<Worker>>, k: K, w: Worker)
    requires Owned(owner, lists) && w in List(lists, k)
    ensures w in owner && owner[w] == k
  {}

  lemma {:induction false} ExceptRemove<K>(owner: map<Worker, K>, k: K, q: seq<Worker>, w: Worker)
    requires w in owner && owner[w] == k
    ensures Except(owner, k, Remove(q, w)) == Except(owner, k, q)
  {
    if q != [] && q[0] != w {
      ExceptRemove(owner, k, q[1..], w);
      var r := [q[0]] + Remove(q[1..], w);
      assert r[1..] == Remove(q[1..], w);
    }
  }

  lemma {:induction false} ExceptNone<K>(owner: map<Worker, K>, k: K, q: seq<Worker>)
    requires Cleared(owner, k, q, |q|)
    ensures Except(owner, k, q) == q
  {
    if q != [] {
      ExceptNone(owner, k, q[1..]);
      assert q == [q[0]] + q[1..];
    }
  }
}
