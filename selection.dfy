/** The selected entity `selfile` and the `'j'`/`'k'` keys that move it:
    forward and backward through the `nfiles` entities, wrapping at both ends. */
module Selection {

  /** `'j'`: the next entity, with the last one followed by the first. */
  function Next(s: int, n: int): int {
    if s == n - 1 then 0 else s + 1
  }

  /** `'k'`: the previous entity, with the first one preceded by the last. */
  function Prev(s: int, n: int): int {
    if s == 0 then n - 1 else s - 1
  }

  /** On a selection in range, `'j'` is the successor modulo `nfiles` (and so
      stays in range). */
  lemma NextIsSuccessor(s: int, n: int)
    requires 0 <= s < n
    ensures Next(s, n) == (s + 1) % n
  {
    if s == n - 1 {
      assert (s + 1) % n == n % n == 0;
    } else {
      assert 0 <= s + 1 < n;
    }
  }

  /** On a selection in range, `'k'` is the predecessor modulo `nfiles`. */
  lemma PrevIsPredecessor(s: int, n: int)
    requires 0 <= s < n
    ensures Prev(s, n) == (s - 1) % n
  {
    if s == 0 {
      assert (s - 1) % n == (-1) % n == n - 1;
    } else {
      assert 0 <= s - 1 < n;
    }
  }

  /** `'k'` undoes `'j'` and `'j'` undoes `'k'`. */
  lemma PrevUndoesNext(s: int, n: int)
    requires 0 <= s < n
    ensures Prev(Next(s, n), n) == s
    ensures Next(Prev(s, n), n) == s
  {
  }

  /** `k` presses of `'j'`. */
  function NextTimes(s: int, n: int, k: nat): int {
    if k == 0 then s else Next(NextTimes(s, n, k - 1), n)
  }

  /** `k` presses of `'j'` advance the selection by `k` modulo `nfiles`. */
  lemma {:induction false} NextTimesModular(s: int, n: int, k: nat)
    requires 0 <= s < n
    ensures NextTimes(s, n, k) == (s + k) % n
  {
    if k > 0 {
      NextTimesModular(s, n, k - 1);
      var t := NextTimes(s, n, k - 1);
      NextIsSuccessor(t, n);
      ModSuccessor(s + k - 1, n);
    }
  }

  /** `((a mod n) + 1) mod n = (a + 1) mod n`. */
  lemma ModSuccessor(a: int, n: int)
    requires 0 < n
    ensures ((a % n) + 1) % n == (a + 1) % n
  {
    var q, r := a / n, a % n;
    assert a == q * n + r;
    if r == n - 1 {
      ModUnique(r + 1, n, 1, 0);
      ModUnique(a + 1, n, q + 1, 0);
    } else {
      ModUnique(r + 1, n, 0, r + 1);
      ModUnique(a + 1, n, q, r + 1);
    }
  }

  /** The remainder is the only `r` in `[0, n)` with `a = q*n + r`. */
  lemma ModUnique(a: int, n: int, q: int, r: int)
    requires 0 <= r < n && a == q * n + r
    ensures a % n == r
  {
    var d := q - a / n;
    assert a == (a / n) * n + a % n;
    assert d * n == a % n - r;
    if d >= 1 {
      MultipleAtLeast(d, n);
    } else if d <= -1 {
      MultipleAtLeast(-d, n);
    }
  }

  /** A positive multiple of a positive `n` is at least `n`. */
  lemma MultipleAtLeast(d: int, n: int)
    requires 0 < n && 1 <= d
    ensures n <= d * n
  {
    assert d * n == (d - 1) * n + n;
    assert 0 <= (d - 1) * n;
  }

  /** Pressing `'j'` `nfiles` times visits every entity and comes back. */
  lemma FullCycle(s: int, n: int)
    requires 0 <= s < n
    ensures NextTimes(s, n, n) == s
  {
    NextTimesModular(s, n, n);
    assert (s + n) % n == s;
  }
}
