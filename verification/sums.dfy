/** SQL aggregates: sums over the rows of a table and over a set of keys. */
module Sums {

  /** The sum of `g` over the row numbers below `n`. */
  function Sum(n: nat, g: nat -> int): int {
    if n == 0 then 0 else Sum(n - 1, g) + g(n - 1)
  }

  lemma {:induction false} SumOfEqual(n: nat, g: nat -> int, h: nat -> int)
    requires forall k: nat | k < n :: g(k) == h(k)
    ensures Sum(n, g) == Sum(n, h)
  {
    if n > 0 {
      SumOfEqual(n - 1, g, h);
    }
  }

  /** Changing one row changes the sum by exactly the difference of that row. */
  lemma {:induction false} SumOfUpdate(n: nat, g: nat -> int, h: nat -> int, j: nat)
    requires j < n
    requires forall k: nat | k < n && k != j :: g(k) == h(k)
    ensures Sum(n, h) == Sum(n, g) + h(j) - g(j)
  {
    if j == n - 1 {
      SumOfEqual(n - 1, g, h);
    } else {
      SumOfUpdate(n - 1, g, h, j);
    }
  }

  lemma {:induction false} SumOfSum(n: nat, g: nat -> int, h: nat -> int, both: nat -> int)
    requires forall k: nat | k < n :: both(k) == g(k) + h(k)
    ensures Sum(n, both) == Sum(n, g) + Sum(n, h)
  {
    if n > 0 {
      SumOfSum(n - 1, g, h, both);
    }
  }

  /** A sum of non-negative rows is zero exactly when every row is zero. */
  lemma {:induction false} SumZeroIffAllZero(n: nat, g: nat -> int)
    requires forall k: nat | k < n :: g(k) >= 0
    ensures Sum(n, g) >= 0
    ensures Sum(n, g) == 0 <==> forall k: nat | k < n :: g(k) == 0
  {
    if n > 0 {
      SumZeroIffAllZero(n - 1, g);
    }
  }

  /** The sum of `g` over a set of keys, in whatever order they are visited. */
  ghost function SetSum<K>(keys: set<K>, g: K -> int): int {
    if keys == {} then 0 else
      var k :| k in keys;
      SetSum(keys - {k}, g) + g(k)
  }

  lemma {:induction false} SetSumRemove<K>(keys: set<K>, g: K -> int, k: K)
    requires k in keys
    ensures SetSum(keys, g) == SetSum(keys - {k}, g) + g(k)
    decreases |keys|
  {
    var first :| first in keys && SetSum(keys, g) == SetSum(keys - {first}, g) + g(first);
    if first != k {
      SetSumRemove(keys - {first}, g, k);
      SetSumRemove(keys - {k}, g, first);
      assert keys - {first} - {k} == keys - {k} - {first};
    }
  }

  lemma {:induction false} SetSumOfEqual<K>(keys: set<K>, g: K -> int, h: K -> int)
    requires forall k | k in keys :: g(k) == h(k)
    ensures SetSum(keys, g) == SetSum(keys, h)
    decreases |keys|
  {
    if keys != {} {
      var k :| k in keys;
      SetSumRemove(keys, g, k);
      SetSumRemove(keys, h, k);
      SetSumOfEqual(keys - {k}, g, h);
    }
  }

  lemma {:induction false} SetSumOfSum<K>(keys: set<K>, g: K -> int, h: K -> int, both: K -> int)
    requires forall k | k in keys :: both(k) == g(k) + h(k)
    ensures SetSum(keys, both) == SetSum(keys, g) + SetSum(keys, h)
    decreases |keys|
  {
    if keys != {} {
      var k :| k in keys;
      SetSumRemove(keys, g, k);
      SetSumRemove(keys, h, k);
      SetSumRemove(keys, both, k);
      SetSumOfSum(keys - {k}, g, h, both);
    }
  }

  lemma {:induction false} SetSumOfZeros<K>(keys: set<K>, g: K -> int)
    requires forall k | k in keys :: g(k) == 0
    ensures SetSum(keys, g) == 0
    decreases |keys|
  {
    if keys != {} {
      var k :| k in keys;
      SetSumRemove(keys, g, k);
      SetSumOfZeros(keys - {k}, g);
    }
  }

  /** A sum with a single key that matters. */
  lemma SetSumOfOne<K>(keys: set<K>, g: K -> int, at: K)
    requires at in keys && forall k | k in keys && k != at :: g(k) == 0
    ensures SetSum(keys, g) == g(at)
  {
    SetSumRemove(keys, g, at);
    SetSumOfZeros(keys - {at}, g);
  }

  /** Smaller values have a smaller sum, and an equal one only if no value is smaller. */
  lemma {:induction false} SetSumMonotone<K>(keys: set<K>, g: K -> int, h: K -> int)
    requires forall k | k in keys :: g(k) <= h(k)
    ensures SetSum(keys, g) <= SetSum(keys, h)
    ensures SetSum(keys, g) == SetSum(keys, h) <==> forall k | k in keys :: g(k) == h(k)
    decreases |keys|
  {
    if keys != {} {
      var k :| k in keys;
      SetSumRemove(keys, g, k);
      SetSumRemove(keys, h, k);
      SetSumMonotone(keys - {k}, g, h);
    }
  }
}
