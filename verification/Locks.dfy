/** Mutual exclusion among any number of threads: a lock, the points of the program that
    stand inside its critical section, and what a step of one thread does to both. */
module Locks {

  type Tid = nat

  datatype Owner = Free | By(t: Tid)

  /** The lock o is owned by exactly the thread that stands in its critical section. */
  ghost predicate Guards<P>(pc: seq<P>, o: Owner, inside: P -> bool) {
    && (forall t :: 0 <= t < |pc| ==> (o == By(t) <==> inside(pc[t])))
    && (o.By? ==> o.t < |pc|)
  }

  /** Where the owner of the lock stands, or `out` when the lock is free. */
  function Holder<P>(pc: seq<P>, o: Owner, out: P): P {
    if o.By? && o.t < |pc| then pc[o.t] else out
  }

  /** Where the owner stands after some thread went from p to p'. */
  function HolderAfter<P>(holder: P, p: P, p': P, inside: P -> bool, out: P): P {
    if inside(p') then p' else if inside(p) then out else holder
  }

  /** The lock goes from o to o' when thread t goes from p to p'. */
  ghost predicate LockMoves<P>(o: Owner, p: P, t: Tid, o': Owner, p': P, inside: P -> bool) {
    if inside(p) == inside(p') then o' == o
    else if inside(p') then o == Free && o' == By(t)
    else o' == Free
  }

  /** A thread that takes the lock only when it is free, and gives up only its own, keeps the
      exclusion; the others may move as long as they stay outside. */
  lemma GuardsMove<P>(pc: seq<P>, t: Tid, pc': seq<P>, o: Owner, o': Owner, inside: P -> bool, out: P)
    requires Guards(pc, o, inside) && t < |pc| == |pc'|
    requires forall u :: 0 <= u < |pc| && u != t ==>
        inside(pc'[u]) == inside(pc[u]) && (inside(pc[u]) ==> pc'[u] == pc[u])
    requires LockMoves(o, pc[t], t, o', pc'[t], inside)
    requires !inside(out)
    ensures Guards(pc', o', inside)
    ensures Holder(pc', o', out) == HolderAfter(Holder(pc, o, out), pc[t], pc'[t], inside, out)
  {
  }
}
