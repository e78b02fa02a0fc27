/** Things that are on the list of their owner. All the lists of the server are of this kind: the
    FIFO of a function and priority, what a worker runs, the workers of a connection, ... */
module Ownership {
  import opened Seqs

  /** Each `x` is on the list of `owner[x]`, once, and on no other; nothing else is on a list. */
  ghost predicate Owned<K>(owner: map<nat, K>, lists: map<K, seq<nat>>) {
    && (forall x :: x in owner ==> owner[x] in lists && x in lists[owner[x]])
    && (forall k :: k in lists ==> NoDup(lists[k]))
    && (forall k, x :: k in lists && x in lists[k] ==> x in owner && owner[x] == k)
  }

  lemma OwnedAdd<K>(owner: map<nat, K>, lists: map<K, seq<nat>>, x: nat, k: K)
    requires Owned(owner, lists) && x !in owner
    ensures Owned(owner[x := k], lists[k := [x] + List(lists, k)])
    ensures Owned(owner[x := k], lists[k := List(lists, k) + [x]])
  {
    AppendKeeps(List(lists, k), x);
  }

  lemma OwnedDel<K>(owner: map<nat, K>, lists: map<K, seq<nat>>, x: nat)
    requires Owned(owner, lists) && x in owner
    ensures var k := owner[x]; Owned(owner - {x}, lists[k := Remove(List(lists, k), x)])
  {
    RemoveKeeps(lists[owner[x]], x);
  }

  lemma OwnedDelAt<K>(owner: map<nat, K>, lists: map<K, seq<nat>>, k: K, i: nat)
    requires Owned(owner, lists) && k in lists && i < |lists[k]|
    ensures lists[k][i] in owner && owner[lists[k][i]] == k
    ensures Owned(owner - {lists[k][i]}, lists[k := RemoveAt(lists[k], i)])
  {
    assert lists[k][i] in lists[k];
    RemoveAtKeeps(lists[k], i);
  }

  lemma OwnedAt<K>(owner: map<nat, K>, lists: map<K, seq<nat>>, k: K, i: nat)
    requires Owned(owner, lists) && i < |List(lists, k)|
    ensures lists[k][i] in owner && owner[lists[k][i]] == k
  {
    assert lists[k][i] in lists[k];
  }

  /** A list whose owner owns nothing is empty. */
  lemma OwnedNone<K>(owner: map<nat, K>, lists: map<K, seq<nat>>, k: K)
    requires Owned(owner, lists) && forall x :: x in owner ==> owner[x] != k
    ensures List(lists, k) == []
  {
    if List(lists, k) != [] {
      OwnedAt(owner, lists, k, 0);
      assert false;
    }
  }

  /** Turning a list keeps what is on it. */
  ghost predicate Reordered(q: seq<nat>, r: seq<nat>) {
    NoDup(r) && forall x :: x in r <==> x in q
  }

  lemma OwnedTurn<K>(owner: map<nat, K>, lists: map<K, seq<nat>>, k: K, q: seq<nat>)
    requires Owned(owner, lists) && Reordered(List(lists, k), q)
    ensures Owned(owner, lists[k := q])
  {}

  lemma OwnedDrop<K>(owner: map<nat, K>, lists: map<K, seq<nat>>, k: K)
    requires Owned(owner, lists) && List(lists, k) == []
    ensures Owned(owner, lists - {k})
  {}

  /** The owner of each entry of a table. */
  function Owner<V, K>(table: map<nat, V>, f: V -> K): map<nat, K> { map x | x in table :: f(table[x]) }

  lemma OwnerAdd<V, K>(table: map<nat, V>, f: V -> K, x: nat, v: V)
    ensures Owner(table[x := v], f) == Owner(table, f)[x := f(v)]
  {}

  lemma OwnerDel<V, K>(table: map<nat, V>, f: V -> K, x: nat)
    ensures Owner(table - {x}, f) == Owner(table, f) - {x}
  {}
}
