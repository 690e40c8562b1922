/**
 * Index arithmetic of the playlist cursor (music_app.py:41-50). Python's
 * `%` with a positive divisor never yields a negative number, and neither
 * does Dafny's, so `(i + 1) % n` and `(i - 1) % n` are written as they are.
 */
module Cursor {

  /** The index `next` moves to: one further, wrapping from the last to the first. */
  function NextIndex(i: int, n: nat): (r: int)
    requires n > 0
    ensures 0 <= r < n
    ensures 0 <= i < n - 1 ==> r == i + 1
    ensures i == n - 1 ==> r == 0
  {
    (i + 1) % n
  }

  /** The index `prev` moves to: one back, wrapping from the first to the last. */
  function PrevIndex(i: int, n: nat): (r: int)
    requires n > 0
    ensures 0 <= r < n
    ensures 0 < i < n ==> r == i - 1
    ensures i == 0 ==> r == n - 1
  {
    (i - 1) % n
  }

  /** The index reached from `i` by `k` successive calls of `next`. */
  function Advance(i: int, n: nat, k: nat): (r: int)
    requires n > 0
  {
    if k == 0 then i else NextIndex(Advance(i, n, k - 1), n)
  }

  /** `prev` undoes `next`. */
  lemma PrevUndoesNext(i: int, n: nat)
    requires 0 <= i < n
    ensures PrevIndex(NextIndex(i, n), n) == i
  {
  }

  /** `next` undoes `prev`. */
  lemma NextUndoesPrev(i: int, n: nat)
    requires 0 <= i < n
    ensures NextIndex(PrevIndex(i, n), n) == i
  {
  }

  /** Before the end of the list is reached, k calls of `next` add k. */
  lemma {:induction false} AdvanceWithoutWrap(i: int, n: nat, k: nat)
    requires 0 <= i && i + k < n
    ensures Advance(i, n, k) == i + k
  {
    if k > 0 {
      AdvanceWithoutWrap(i, n, k - 1);
    }
  }

  /** Stepping a + b times is stepping a times and then b times. */
  lemma {:induction false} AdvanceCompose(i: int, n: nat, a: nat, b: nat)
    requires n > 0
    ensures Advance(i, n, a + b) == Advance(Advance(i, n, a), n, b)
  {
    if b > 0 {
      AdvanceCompose(i, n, a, b - 1);
    }
  }

  /** n calls of `next` on a list of n tracks return the cursor to where it started. */
  lemma FullCycle(i: int, n: nat)
    requires 0 <= i < n
    ensures Advance(i, n, n) == i
  {
    var toLast := n - 1 - i;
    AdvanceWithoutWrap(i, n, toLast);
    AdvanceCompose(i, n, toLast, i + 1);
    AdvanceCompose(n - 1, n, 1, i);
    AdvanceWithoutWrap(0, n, i);
  }

  /** The cursor position after k calls of `next` repeats with period n. */
  lemma Periodic(i: int, n: nat, k: nat)
    requires 0 <= i < n
    ensures Advance(i, n, k + n) == Advance(i, n, k)
  {
    AdvanceCompose(i, n, n, k);
    FullCycle(i, n);
  }
}
