/** The work-stealing deque (wsq.cpp), its operations taken one at a time: a growable
    circular array that refines a sequence. */
module WorkStealingDeque {
  import opened Masks

  const INITIAL_SIZE: nat := 32

  lemma InitialSizeIsPow2()
    ensures IsPow2(INITIAL_SIZE)
  {
    assert IsPow2(2) && IsPow2(4) && IsPow2(8) && IsPow2(16);
  }

  /** The items at indices head up to tail of a circular array, oldest first. */
  ghost function View<T>(a: seq<T>, head: nat, tail: nat, mask: nat): (s: seq<T>)
    requires |a| == mask + 1 && IsPow2(mask + 1) && head <= tail
    ensures |s| == tail - head
    ensures forall i :: 0 <= i < |s| ==> s[i] == a[Slot(head + i, mask)]
  {
    seq(tail - head, i requires 0 <= i < tail - head => a[Slot(head + i, mask)])
  }

  /** Writing behind the newest item appends. */
  lemma ViewAppend<T>(a: seq<T>, head: nat, tail: nat, mask: nat, x: T)
    requires |a| == mask + 1 && IsPow2(mask + 1) && head <= tail <= head + mask
    ensures View(a[Slot(tail, mask) := x], head, tail + 1, mask) == View(a, head, tail, mask) + [x]
  {
    var s := View(a[Slot(tail, mask) := x], head, tail + 1, mask);
    forall i | 0 <= i < tail - head ensures s[i] == View(a, head, tail, mask)[i] {
      SlotsDistinct(head + i, tail, mask);
    }
  }

  /** What the owner finds in the newest slot is the newest item; the rest is untouched. */
  lemma ViewTake<T>(a: seq<T>, head: nat, tail: nat, mask: nat, ca: T)
    requires |a| == mask + 1 && IsPow2(mask + 1) && head <= tail <= head + mask
    ensures View(a, head, tail + 1, mask) == View(a[Slot(tail, mask) := ca], head, tail, mask) + [a[Slot(tail, mask)]]
  {
    var k := Slot(tail, mask);
    ViewAppend(a[k := ca], head, tail, mask, a[k]);
    assert a[k := ca][k := a[k]] == a;
  }

  /** What a thief finds in the oldest slot is the oldest item; the rest is untouched. */
  lemma ViewSteal<T>(a: seq<T>, head: nat, tail: nat, mask: nat, ca: T)
    requires |a| == mask + 1 && IsPow2(mask + 1) && head < tail <= head + mask + 1
    ensures View(a, head, tail, mask) == [a[Slot(head, mask)]] + View(a[Slot(head, mask) := ca], head + 1, tail, mask)
  {
    var s := View(a[Slot(head, mask) := ca], head + 1, tail, mask);
    forall i | 0 <= i < tail - head - 1 ensures s[i] == View(a, head, tail, mask)[i + 1] {
      SlotsDistinct(head, head + 1 + i, mask);
    }
  }

  /** Copied to the front of an array of twice the size, the items keep their order. */
  lemma ViewGrown<T>(a: seq<T>, head: nat, tail: nat, mask: nat, b: seq<T>)
    requires |a| == mask + 1 && IsPow2(mask + 1) && head <= tail <= head + mask + 1
    requires |b| == 2 * (mask + 1) && forall k :: 0 <= k < tail - head ==> b[k] == a[Slot(k + head, mask)]
    ensures IsPow2(2 * mask + 1 + 1) && View(b, 0, tail - head, 2 * mask + 1) == View(a, head, tail, mask)
  {
    assert (2 * mask + 1 + 1) / 2 == mask + 1;
    var s := View(b, 0, tail - head, 2 * mask + 1);
    forall i | 0 <= i < tail - head ensures s[i] == View(a, head, tail, mask)[i] {
      SmallSlot(i, 2 * mask + 1);
      assert b[i] == a[Slot(i + head, mask)];
    }
  }

  class Wsq<T(0)> {
    var slots: array<T>
    var capacity: nat
    var mask: nat
    var headIdx: nat
    var tailIdx: nat
    var posts: nat          // how often put has called fsem_.post()

    ghost predicate Valid()
      reads this
    {
      && capacity == mask + 1 && slots.Length == capacity && IsPow2(capacity)
      && headIdx <= tailIdx <= headIdx + capacity
    }

    /** The queued items, oldest first. */
    ghost function Contents(): (s: seq<T>)
      requires Valid()
      reads this, slots
      ensures |s| == tailIdx - headIdx
    {
      View(slots[..], headIdx, tailIdx, mask)
    }

    constructor ()
      ensures Valid() && fresh(slots) && Contents() == [] && capacity == INITIAL_SIZE && posts == 0
    {
      slots := new T[INITIAL_SIZE];
      capacity := INITIAL_SIZE;
      mask := INITIAL_SIZE - 1;
      headIdx, tailIdx, posts := 0, 0, 0;
      new;
      InitialSizeIsPow2();
    }

    method Size() returns (n: nat)
      requires Valid()
      ensures n == |Contents()| <= capacity
    {
      n := tailIdx - headIdx;
    }

    method Empty() returns (b: bool)
      requires Valid()
      ensures b <==> Contents() == []
    {
      b := headIdx >= tailIdx;
    }

    /** put: appends, growing the array when it is full. */
    method Put(x: T)
      requires Valid()
      modifies this, slots
      ensures Valid() && (slots == old(slots) || fresh(slots))
      ensures Contents() == old(Contents()) + [x]
      ensures capacity == if |old(Contents())| == old(capacity) then 2 * old(capacity) else old(capacity)
      ensures posts == old(posts) + 1
    {
      var tail := tailIdx;
      if tail <= headIdx + mask {
        Append(tail, x);
      } else {
        var head := headIdx;
        var count := Size();
        if count >= mask {
          Grow(head, count);
          tail := count;
        }
        Append(tail, x);
      }
      posts := posts + 1;
    }

    /** The end of put: write behind the newest item and count it. */
    method Append(tail: nat, x: T)
      requires Valid() && tail == tailIdx < headIdx + capacity
      modifies slots, `tailIdx
      ensures Valid() && Contents() == old(Contents()) + [x]
    {
      ViewAppend(slots[..], headIdx, tail, mask, x);
      slots[Slot(tail, mask)] := x;
      tailIdx := tailIdx + 1;
    }

    /** The growth inside put: twice the room, the same items in the same order, the oldest at index 0. */
    method Grow(head: nat, count: nat)
      requires Valid() && head == headIdx && count == tailIdx - headIdx
      modifies this
      ensures Valid() && fresh(slots) && Contents() == old(Contents())
      ensures capacity == 2 * old(capacity) && headIdx == 0 && tailIdx == count && posts == old(posts)
    {
      capacity := 2 * capacity;
      var bigger := new T[capacity];
      for i := 0 to count
        invariant forall k :: 0 <= k < i ==> bigger[k] == slots[Slot(k + head, mask)]
        modifies bigger
      {
        bigger[i] := slots[Slot(i + head, mask)];
      }
      ViewGrown(slots[..], head, head + count, mask, bigger[..]);
      slots := bigger;
      headIdx := 0;
      tailIdx := count;
      mask := 2 * mask + 1;
    }

    /** try_take: the owner takes the newest item, leaving what it passed in its slot. */
    method TryTake(ca: T) returns (ok: bool, item: T)
      requires Valid()
      modifies slots, `tailIdx
      ensures Valid()
      ensures ok <==> old(Contents()) != []
      ensures ok ==> old(Contents()) == Contents() + [item]
      ensures !ok ==> Contents() == old(Contents()) && item == ca
    {
      ok, item := false, ca;
      var tail := tailIdx;
      if tail == 0 { return; }
      tail := tail - 1;
      tailIdx := tail;
      if headIdx <= tail {
        ViewTake(slots[..], headIdx, tail, mask, ca);
        item := Exchange(tail, ca);
        ok := true;
      } else {
        // with mtx_ locked the test is made again; nobody has moved headIdx meanwhile
        tailIdx := tailIdx + 1;
      }
    }

    /** try_steal with mtx_ free: a thief takes the oldest item. */
    method TrySteal(ca: T) returns (ok: bool, item: T)
      requires Valid()
      modifies slots, `headIdx
      ensures Valid()
      ensures ok <==> old(Contents()) != []
      ensures ok ==> old(Contents()) == [item] + Contents()
      ensures !ok ==> Contents() == old(Contents()) && item == ca
    {
      ok, item := false, ca;
      var head := headIdx;
      headIdx := head + 1;
      if head < tailIdx {
        ViewSteal(slots[..], head, tailIdx, mask, ca);
        item := Exchange(head, ca);
        ok := true;
      } else {
        headIdx := head;
      }
    }

    /** ca.swap(array_[i & mask_]) */
    method Exchange(i: nat, ca: T) returns (item: T)
      requires mask + 1 == slots.Length && IsPow2(mask + 1)
      modifies slots
      ensures item == old(slots[..])[Slot(i, mask)]
      ensures slots[..] == old(slots[..])[Slot(i, mask) := ca]
    {
      var k := Slot(i, mask);
      item := slots[k];
      slots[k] := ca;
    }
  }
}
