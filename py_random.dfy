/**
 * The two functions of Python's `random` module the player calls.
 * A random draw is a nondeterministic choice: the model promises only
 * the range each draw lies in, so every property proved about a caller
 * holds for every possible outcome of the draws.
 */
module PyRandom {

  /** `random.randint(a, b)`: some integer of the closed range [a, b]. */
  method RandInt(a: int, b: int) returns (r: int)
    requires a <= b
    ensures a <= r <= b
  {
    r :| a <= r <= b;
  }

  /**
   * `random.shuffle(x)`: CPython's Fisher-Yates loop, which walks i from
   * the last position down to 1 and swaps x[i] with x[j] for a random
   * j in [0, i]. Whatever the draws, the result is a permutation.
   */
  method Shuffle<T>(s: seq<T>) returns (t: seq<T>)
    ensures |t| == |s|
    ensures multiset(t) == multiset(s)
  {
    t := s;
    var i := |t| - 1;
    while i > 0
      invariant -1 <= i < |t|
      invariant |t| == |s|
      invariant multiset(t) == multiset(s)
    {
      var j := RandInt(0, i);
      t := t[i := t[j]][j := t[i]];
      i := i - 1;
    }
  }
}
