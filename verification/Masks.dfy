/** Index masks: bitwise and with 2^k - 1, over naturals. */
module Masks {

  predicate IsPow2(n: nat) {
    n == 1 || (n > 1 && n % 2 == 0 && IsPow2(n / 2))
  }

  /** Bitwise and of two naturals. */
  function And(a: nat, b: nat): nat {
    if a == 0 || b == 0 then 0 else (if a % 2 == 1 && b % 2 == 1 then 1 else 0) + 2 * And(a / 2, b / 2)
  }

  lemma Multiples(n: int, d: int)
    requires n >= 0
    ensures d >= 1 ==> n * d >= n
    ensures d <= -1 ==> n * d <= -n
  {
  }

  lemma ModUnique(i: nat, n: nat, a: nat, r: nat)
    requires n > 0 && i == n * a + r && r < n
    ensures i % n == r
  {
    var d := i / n - a;
    assert n * d == n * (i / n) - n * a;
    Multiples(n, d);
  }

  lemma ModOfDouble(i: nat, n: nat)
    requires n > 0
    ensures i % (2 * n) == i % 2 + 2 * ((i / 2) % n)
  {
    var a, b := (i / 2) / n, (i / 2) % n;
    assert i / 2 == n * a + b;
    assert i == (2 * n) * a + (2 * b + i % 2);
    ModUnique(i, 2 * n, a, 2 * b + i % 2);
  }

  /** Masking an index with capacity - 1 wraps it around the capacity. */
  lemma {:induction false} AndMask(i: nat, mask: nat)
    requires IsPow2(mask + 1)
    ensures And(i, mask) == i % (mask + 1)
  {
    if i == 0 || mask == 0 {
    } else {
      var n := (mask + 1) / 2;
      assert mask / 2 + 1 == n && mask % 2 == 1 && mask + 1 == 2 * n;
      AndMask(i / 2, mask / 2);
      ModOfDouble(i, n);
    }
  }

  /** The slot of an index, array_[i & mask_]. */
  function Slot(i: nat, mask: nat): (k: nat)
    requires IsPow2(mask + 1)
    ensures k == i % (mask + 1) && k <= mask
  {
    AndMask(i, mask);
    And(i, mask)
  }

  lemma RemaindersDiffer(i: nat, j: nat, n: nat)
    requires i < j < i + n
    ensures i % n != j % n
  {
    var d := j / n - i / n;
    assert j - i == n * d + (j % n - i % n) by {
      assert n * d == n * (j / n) - n * (i / n);
    }
    Multiples(n, d);
  }

  /** Two indices less than the capacity apart do not share a slot. */
  lemma SlotsDistinct(i: nat, j: nat, mask: nat)
    requires IsPow2(mask + 1) && i < j < i + mask + 1
    ensures Slot(i, mask) != Slot(j, mask)
  {
    RemaindersDiffer(i, j, mask + 1);
  }

  /** One full turn further is the same slot. */
  lemma SlotWraps(i: nat, mask: nat)
    requires IsPow2(mask + 1)
    ensures Slot(i + mask + 1, mask) == Slot(i, mask)
  {
    var n := mask + 1;
    assert i + n == n * (i / n + 1) + i % n;
    ModUnique(i + n, n, i / n + 1, i % n);
  }

  lemma SmallSlot(i: nat, mask: nat)
    requires IsPow2(mask + 1) && i <= mask
    ensures Slot(i, mask) == i
  {
    ModUnique(i, mask + 1, 0, i);
  }
}
