/** Cycling through the die prefabs with Next/Previous. */
module DieSelection {

  /** The modular selection law: one step forward or back, modulo the
      number of prefabs (Dafny's `%` is Euclidean, so never negative). */
  function Cycle(index: int, count: int, next: bool): (r: int)
    requires count > 0
    ensures 0 <= r < count
  {
    (index + (if next then 1 else -1)) % count
  }

  /** The three cases of `ChangeDie`'s wrap-around: Next from the last
      prefab goes to the first, Previous from the first goes to the last,
      and otherwise the index moves by one. */
  lemma CycleCases(index: int, count: int, next: bool)
    requires 0 <= index < count
    ensures next && index == count - 1 ==> Cycle(index, count, next) == 0
    ensures !next && index == 0 ==> Cycle(index, count, next) == count - 1
    ensures next && index < count - 1 ==> Cycle(index, count, next) == index + 1
    ensures !next && index > 0 ==> Cycle(index, count, next) == index - 1
  {
  }

  /** Previous undoes Next and Next undoes Previous. */
  lemma CycleInverse(index: int, count: int, next: bool)
    requires 0 <= index < count
    ensures Cycle(Cycle(index, count, next), count, !next) == index
  {
    CycleCases(index, count, next);
    CycleCases(Cycle(index, count, next), count, !next);
  }

  /** `k` presses of the same button. */
  function Presses(index: int, count: int, next: bool, k: nat): (r: int)
    requires count > 0
    requires 0 <= index < count
    ensures 0 <= r < count
    decreases k
  {
    if k == 0 then index else Presses(Cycle(index, count, next), count, next, k - 1)
  }

  /** Pressing Next `k` times moves `k` prefabs forward, modulo the count;
      in particular `count` presses come back to the prefab selected at the
      start. */
  lemma {:induction false} PressesAdvance(index: int, count: int, k: nat)
    requires 0 <= index < count
    ensures Presses(index, count, true, k) == (index + k) % count
    decreases k
  {
    if k > 0 {
      var j := Cycle(index, count, true);
      PressesAdvance(j, count, k - 1);
      CycleCases(index, count, true);
      if index == count - 1 {
        ModAddCount(k - 1, count);
      } else {
        assert j == index + 1;
      }
    }
  }

  /** Pressing Previous `k` times moves `k` prefabs back, modulo the count. */
  lemma {:induction false} PressesRetreat(index: int, count: int, k: nat)
    requires 0 <= index < count
    ensures Presses(index, count, false, k) == (index - k) % count
    decreases k
  {
    if k > 0 {
      var j := Cycle(index, count, false);
      PressesRetreat(j, count, k - 1);
      CycleCases(index, count, false);
      if index == 0 {
        var m: int := index - k;
        assert j - (k - 1) == m + count;
        ModAddCount(m, count);
      } else {
        assert j == index - 1;
      }
    }
  }

  lemma FullCycle(index: int, count: int)
    requires 0 <= index < count
    ensures Presses(index, count, true, count) == index
  {
    PressesAdvance(index, count, count);
    DivModUnique(index + count, 1, index, count);
  }

  /** Adding the modulus does not change the remainder. */
  lemma ModAddCount(y: int, n: int)
    requires n > 0
    ensures (y + n) % n == y % n
  {
    var d, m := y / n, y % n;
    assert y + n == (d + 1) * n + m;
    DivModUnique(y + n, d + 1, m, n);
  }

  /** Euclidean division has one quotient and one remainder. */
  lemma DivModUnique(y: int, d: int, m: int, n: int)
    requires n > 0 && 0 <= m < n && y == d * n + m
    ensures y % n == m
  {
    var d', m' := y / n, y % n;
    assert y == d' * n + m';
    assert (d - d') * n == m' - m;
    if d' < d {
      MulAtLeast(d - d', n);
    } else if d' > d {
      MulAtLeast(d' - d, n);
    }
  }

  lemma {:induction false} MulAtLeast(a: int, n: int)
    requires a >= 1 && n > 0
    ensures a * n >= n
    decreases a
  {
    if a > 1 {
      MulAtLeast(a - 1, n);
      assert a * n == (a - 1) * n + n;
    }
  }
}
