/** Counting the numbers carried by a queue. Every queue of the protocol is a
    sequence; what conservation laws need of it is the bag (multiset) of the
    sequence numbers its entries stand for. */
module Bags {

  datatype Option<+T> = None | Some(value: T)

  /** The sequence without its i-th element: what list_del leaves of a list. */
  function Without<T>(q: seq<T>, i: nat): seq<T>
    requires i < |q|
  {
    q[..i] + q[i + 1..]
  }

  /** A slot holding at most one message, as a queue. */
  function Held<T>(slot: Option<T>): seq<T> {
    match slot
    case None => []
    case Some(x) => [x]
  }

  /** The sum, over the queue, of the bag that f assigns to each entry. */
  ghost function Bag<T>(q: seq<T>, f: T -> multiset<nat>): multiset<nat> {
    if q == [] then multiset{} else f(q[0]) + Bag(q[1..], f)
  }

  lemma {:induction false} BagAppend<T>(a: seq<T>, b: seq<T>, f: T -> multiset<nat>)
    ensures Bag(a + b, f) == Bag(a, f) + Bag(b, f)
  {
    if a == [] {
      assert a + b == b;
    } else {
      assert (a + b)[1..] == a[1..] + b;
      BagAppend(a[1..], b, f);
    }
  }

  lemma BagOne<T>(x: T, f: T -> multiset<nat>)
    ensures Bag([x], f) == f(x)
  {
    assert [x][1..] == [];
  }

  lemma BagPush<T>(a: seq<T>, x: T, f: T -> multiset<nat>)
    ensures Bag(a + [x], f) == Bag(a, f) + f(x)
  {
    BagAppend(a, [x], f);
    BagOne(x, f);
  }

  lemma BagWithout<T>(q: seq<T>, i: nat, f: T -> multiset<nat>)
    requires i < |q|
    ensures Bag(q, f) == Bag(Without(q, i), f) + f(q[i])
  {
    hide Bag;
    assert q == q[..i + 1] + q[i + 1..];
    BagAppend(q[..i + 1], q[i + 1..], f);
    assert q[..i + 1] == q[..i] + [q[i]];
    BagPush(q[..i], q[i], f);
    BagAppend(q[..i], q[i + 1..], f);
  }

  /** An entry counts in the bag of its queue. */
  lemma BagHas<T>(q: seq<T>, i: nat, f: T -> multiset<nat>)
    requires i < |q|
    ensures f(q[i]) <= Bag(q, f)
  {
    BagWithout(q, i, f);
  }

  /** Whatever counts in the bag of a queue comes from one of its entries. */
  lemma {:induction false} BagFrom<T>(q: seq<T>, f: T -> multiset<nat>, n: nat) returns (i: nat)
    requires n in Bag(q, f)
    ensures i < |q| && n in f(q[i])
  {
    if n in f(q[0]) {
      i := 0;
    } else {
      var j := BagFrom(q[1..], f, n);
      i := j + 1;
    }
  }

  /** Two entries standing for the same number make it count twice. */
  lemma BagTwice<T>(q: seq<T>, i: nat, j: nat, f: T -> multiset<nat>, n: nat)
    requires i < j < |q| && n in f(q[i]) && n in f(q[j])
    ensures Bag(q, f)[n] >= 2
  {
    BagWithout(q, j, f);
    BagHas(Without(q, j), i, f);
  }

  /** Position of the first entry with key n, or the length of the queue. */
  function First<T>(q: seq<T>, key: T -> nat, n: nat): (i: nat)
    ensures i <= |q|
    ensures i < |q| ==> key(q[i]) == n
    ensures forall j :: 0 <= j < i ==> key(q[j]) != n
  {
    if q == [] || key(q[0]) == n then 0 else 1 + First(q[1..], key, n)
  }

  lemma FirstExists<T>(q: seq<T>, key: T -> nat, i: nat)
    requires i < |q|
    ensures First(q, key, key(q[i])) <= i
  {
  }
}
