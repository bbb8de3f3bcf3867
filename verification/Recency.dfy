/** Lists of distinct keys, most recently used first. */
module Recency {

  predicate NoDup<K(==,!new)>(order: seq<K>) {
    order == [] || (order[0] !in order[1..] && NoDup(order[1..]))
  }

  function Without<K(==,!new)>(order: seq<K>, k: K): (rest: seq<K>)
    ensures k !in rest
    ensures forall x :: x in rest <==> x in order && x != k
  {
    if order == [] then [] else (if order[0] == k then [] else [order[0]]) + Without(order[1..], k)
  }

  function Touch<K(==,!new)>(order: seq<K>, k: K): seq<K> { [k] + Without(order, k) }

  lemma {:induction false} WithoutNoDup<K(!new)>(order: seq<K>, k: K)
    requires NoDup(order)
    ensures NoDup(Without(order, k))
    ensures |Without(order, k)| == |order| - if k in order then 1 else 0
  {
    if order != [] {
      WithoutNoDup(order[1..], k);
      if order[0] != k {
        assert ([order[0]] + Without(order[1..], k))[1..] == Without(order[1..], k);
      } else {
        assert Without(order, k) == Without(order[1..], k);
      }
    }
  }

  lemma {:induction false} WithoutAbsent<K(!new)>(order: seq<K>, k: K)
    requires k !in order
    ensures Without(order, k) == order
  {
    if order != [] {
      WithoutAbsent(order[1..], k);
    }
  }

  lemma {:induction false} WithoutLast<K(!new)>(order: seq<K>)
    requires order != [] && NoDup(order)
    ensures Without(order, order[|order|-1]) == order[..|order|-1]
  {
    if |order| > 1 {
      assert order[|order|-1] == order[1..][|order|-2];
      WithoutLast(order[1..]);
      assert order[..|order|-1] == [order[0]] + order[1..][..|order|-2];
    }
  }

  lemma TouchNoDup<K(!new)>(order: seq<K>, k: K)
    requires NoDup(order)
    ensures NoDup(Touch(order, k))
    ensures forall x :: x in Touch(order, k) <==> x in order || x == k
  {
    WithoutNoDup(order, k);
    assert Touch(order, k)[1..] == Without(order, k);
  }

  lemma {:induction false} PrefixNoDup<K(!new)>(order: seq<K>, n: nat)
    requires NoDup(order) && n <= |order|
    ensures NoDup(order[..n])
    ensures forall i | n <= i < |order| :: order[i] !in order[..n]
  {
    if n > 0 {
      PrefixNoDup(order[1..], n - 1);
      assert order[..n][1..] == order[1..][..n-1];
      forall i | n <= i < |order| ensures order[i] !in order[..n] {
        assert order[i] == order[1..][i-1];
        assert order[..n] == [order[0]] + order[1..][..n-1];
      }
    }
  }

  /** The keys of a set, in the order they had. */
  function Only<K(==,!new)>(order: seq<K>, keys: set<K>): (rest: seq<K>)
    ensures forall x :: x in rest <==> x in order && x in keys
  {
    if order == [] then [] else (if order[0] in keys then [order[0]] else []) + Only(order[1..], keys)
  }

  lemma {:induction false} OnlyAll<K(!new)>(order: seq<K>, keys: set<K>)
    requires forall k | k in order :: k in keys
    ensures Only(order, keys) == order
  {
    if order != [] {
      OnlyAll(order[1..], keys);
    }
  }

  lemma {:induction false} OnlyWithout<K(!new)>(order: seq<K>, keys: set<K>, k: K)
    ensures Without(Only(order, keys), k) == Only(order, keys - {k})
  {
    if order != [] {
      OnlyWithout(order[1..], keys, k);
      if order[0] in keys {
        var rest := Only(order[1..], keys);
        assert Only(order, keys) == [order[0]] + rest;
        assert ([order[0]] + rest)[1..] == rest;
      } else {
        assert Only(order, keys) == Only(order[1..], keys);
      }
    }
  }
}
