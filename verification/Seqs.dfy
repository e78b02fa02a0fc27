/** Sequences without repetition, the abstract value of the server's linked lists. */
module Seqs {

  datatype Option<+T> = None | Some(value: T)

  ghost predicate NoDup<T>(q: seq<T>) {
    forall i, j :: 0 <= i < j < |q| ==> q[i] != q[j]
  }

  /** `q` without the first occurrence of `x`. */
  function Remove<T(==)>(q: seq<T>, x: T): (r: seq<T>)
    ensures x !in q ==> r == q
    ensures x in q ==> |r| == |q| - 1
  {
    if q == [] then []
    else if q[0] == x then q[1..]
    else [q[0]] + Remove(q[1..], x)
  }

  function RemoveAt<T>(q: seq<T>, i: nat): (r: seq<T>)
    requires i < |q|
  {
    q[..i] + q[i + 1..]
  }

  lemma {:induction false} RemoveKeeps<T>(q: seq<T>, x: T)
    requires NoDup(q)
    ensures NoDup(Remove(q, x))
    ensures forall y :: y in Remove(q, x) <==> y in q && y != x
  {
    if q != [] && q[0] != x {
      RemoveKeeps(q[1..], x);
      var r := Remove(q[1..], x);
      assert q == [q[0]] + q[1..];
      assert forall y :: y in q <==> y == q[0] || y in q[1..];
      forall i, j | 0 <= i < j < |r| + 1 ensures ([q[0]] + r)[i] != ([q[0]] + r)[j] {
        if i == 0 { assert r[j - 1] in r; }
      }
    } else if q != [] {
      assert q == [x] + q[1..];
    }
  }

  lemma RemoveAtKeeps<T>(q: seq<T>, i: nat)
    requires NoDup(q) && i < |q|
    ensures NoDup(RemoveAt(q, i))
    ensures forall y :: y in RemoveAt(q, i) <==> y in q && y != q[i]
  {
    var r := RemoveAt(q, i);
    forall y ensures y in r <==> y in q && y != q[i] {
      if y in q && y != q[i] {
        var k :| 0 <= k < |q| && q[k] == y;
        assert k != i;
        if k < i { assert r[k] == y; } else { assert r[k - 1] == y; }
      }
    }
  }

  lemma ConsRemoveAt<T>(q: seq<T>, i: nat)
    requires 0 < i < |q|
    ensures RemoveAt(q, i) == [q[0]] + RemoveAt(q[1..], i - 1)
  {}

  /** Where the first occurrence is. */
  lemma {:induction false} Locate<T>(q: seq<T>, x: T) returns (i: nat)
    requires x in q
    ensures i < |q| && q[i] == x && Remove(q, x) == RemoveAt(q, i)
  {
    if q[0] == x {
      i := 0;
      assert [] + q[1..] == q[1..];
    } else {
      assert q == [q[0]] + q[1..];
      i := Locate(q[1..], x);
      i := i + 1;
      ConsRemoveAt(q, i);
    }
  }

  lemma AppendKeeps<T>(q: seq<T>, x: T)
    requires NoDup(q) && x !in q
    ensures NoDup(q + [x]) && NoDup([x] + q)
    ensures forall y :: y in q + [x] <==> y in q || y == x
    ensures forall y :: y in [x] + q <==> y in q || y == x
  {}

  /** The elements of `q` that satisfy `p`, in order. */
  function Filter<T>(p: T -> bool, q: seq<T>): (r: seq<T>) {
    if q == [] then [] else (if p(q[0]) then [q[0]] else []) + Filter(p, q[1..])
  }

  /** The list of `k`; there is none before something is put on it. */
  function List<K, T>(lists: map<K, seq<T>>, k: K): seq<T> {
    if k in lists then lists[k] else []
  }

  function Elems<T>(q: seq<T>): set<T> { set x | x in q }

  lemma {:induction false} ElemsSize<T>(q: seq<T>)
    requires NoDup(q)
    ensures |Elems(q)| == |q|
  {
    if q != [] {
      ElemsSize(q[1..]);
      assert q == [q[0]] + q[1..];
      assert Elems(q) == {q[0]} + Elems(q[1..]);
    }
  }
}
