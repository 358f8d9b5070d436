/**
 * The documented fixtures of advanced_operations.py that hold ordinary logic:
 * `fibonacci_sequence`, a `while` loop growing a list, and `Cache`, a
 * dictionary-backed store whose methods update it in place.
 */
module AdvancedOperations {
  import opened Wrappers

  /** The Fibonacci numbers, starting 0, 1. */
  function Fib(k: nat): nat
  {
    if k == 0 then 0 else if k == 1 then 1 else Fib(k - 1) + Fib(k - 2)
  }

  /** The first `n` Fibonacci numbers. */
  function FibPrefix(n: nat): (r: seq<nat>)
    ensures |r| == n
    ensures forall i {:trigger r[i]} :: 0 <= i < n ==> r[i] == Fib(i)
  {
    if n == 0 then [] else FibPrefix(n - 1) + [Fib(n - 1)]
  }

  /** The `ValueError` message for a non-positive `n`. */
  const NonPositiveMessage := "'n' must be greater than 0."

  /**
   * `fibonacci_sequence(n)`: start from `[0, 1]`, append the sum of the last
   * two until there are `n` items, and return the first `n`.
   */
  method FibonacciSequence(n: int) returns (r: Result<seq<nat>, string>)
    ensures n <= 0 <==> r.Failure?
    ensures r.Failure? ==> r.error == NonPositiveMessage
    ensures r.Success? ==> r.value == FibPrefix(n)
  {
    if n <= 0 {
      return Failure(NonPositiveMessage);
    }
    var sequence: seq<nat> := [0, 1];
    while |sequence| < n
      invariant 2 <= |sequence|
      invariant |sequence| <= n || |sequence| == 2
      invariant forall i {:trigger sequence[i]} :: 0 <= i < |sequence| ==> sequence[i] == Fib(i)
      decreases n - |sequence|
    {
      var next := sequence[|sequence| - 1] + sequence[|sequence| - 2];
      assert next == Fib(|sequence|);
      sequence := sequence + [next];
    }
    var result := sequence[..n];
    assert result == FibPrefix(n) by {
      var p := FibPrefix(n);
      forall i | 0 <= i < n ensures result[i] == p[i] {
        assert result[i] == sequence[i];
      }
    }
    return Success(result);
  }

  /** The shape the docstring promises: 0, then 1, then each item the sum of the two before it. */
  lemma FibPrefixShape(n: nat)
    ensures n >= 1 ==> FibPrefix(n)[0] == 0
    ensures n >= 2 ==> FibPrefix(n)[1] == 1
    ensures forall i :: 2 <= i < n ==> FibPrefix(n)[i] == FibPrefix(n)[i - 1] + FibPrefix(n)[i - 2]
  {
  }

  /** A longer prefix extends a shorter one. */
  lemma {:induction false} FibPrefixExtends(m: nat, n: nat)
    requires m <= n
    ensures FibPrefix(n)[..m] == FibPrefix(m)
    decreases n
  {
    if m < n {
      FibPrefixExtends(m, n - 1);
      assert FibPrefix(n)[..n - 1] == FibPrefix(n - 1);
      assert FibPrefix(n)[..m] == FibPrefix(n)[..n - 1][..m];
    }
  }

  /** The docstring examples: `fibonacci_sequence(5)`, `fibonacci_sequence(1)`, and a rejected 0. */
  method FibonacciExamples() returns (five: Result<seq<nat>, string>, one: Result<seq<nat>, string>,
                                      zero: Result<seq<nat>, string>)
    ensures five == Success([0, 1, 1, 2, 3])
    ensures one == Success([0])
    ensures zero == Failure(NonPositiveMessage)
  {
    five := FibonacciSequence(5);
    one := FibonacciSequence(1);
    zero := FibonacciSequence(0);
    assert FibPrefix(5) == [0, 1, 1, 2, 3] by {
      var p := FibPrefix(5);
      assert Fib(2) == 1 && Fib(3) == 2 && Fib(4) == 3;
      assert p[0] == 0 && p[1] == 1 && p[2] == 1 && p[3] == 2 && p[4] == 3;
    }
    assert FibPrefix(1) == [0] by {
      assert FibPrefix(1)[0] == Fib(0) == 0;
    }
  }

  /** `self._store.get(key)`. */
  function Lookup<V>(store: map<string, V>, key: string): (r: Option<V>)
    ensures r.Some? <==> key in store
    ensures r.Some? ==> r.value == store[key]
  {
    if key in store then Some(store[key]) else None
  }

  /** After storing `value` under `key`, that key reads back `value` and every other key reads as before. */
  lemma LookupAfterAdd<V>(store: map<string, V>, key: string, value: V, other: string)
    ensures Lookup(store[key := value], key) == Some(value)
    ensures other != key ==> Lookup(store[key := value], other) == Lookup(store, other)
  {
  }

  /** The cleared store reads `None` for every key. */
  lemma LookupAfterClear<V>(key: string)
    ensures var cleared: map<string, V> := map[]; Lookup(cleared, key) == None
  {
  }

  class Cache<V> {
    /** `_store`. */
    var store: map<string, V>

    /** `Cache()`: empty. */
    constructor()
      ensures store == map[]
    {
      store := map[];
    }

    /** `add`: store `value` under `key`, replacing any earlier value. */
    method Add(key: string, value: V)
      modifies this
      ensures store == old(store)[key := value]
    {
      store := store[key := value];
    }

    /** `retrieve`: the value under `key`, or `None`. */
    method Retrieve(key: string) returns (r: Option<V>)
      ensures r == Lookup(store, key)
    {
      if key in store {
        r := Some(store[key]);
      } else {
        r := None;
      }
    }

    /** `clear`: drop every entry. */
    method Clear()
      modifies this
      ensures store == map[]
    {
      store := map[];
    }
  }

  /** The docstring examples of `Cache`: add then retrieve, a missing key, and clear. */
  method CacheExamples() returns (found: Option<int>, missing: Option<int>, cleared: Option<int>)
    ensures found == Some(100) && missing == None && cleared == None
  {
    var cache := new Cache<int>();
    cache.Add("a", 100);
    found := cache.Retrieve("a");
    missing := cache.Retrieve("b");
    cache.Clear();
    cleared := cache.Retrieve("a");
  }
}
