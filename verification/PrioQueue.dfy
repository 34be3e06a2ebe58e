/** The watermarked priority queue (bounded_prio_queue.hpp). mtx_ serialises all
    operations, so a step is one critical section: from taking mtx_ to releasing it,
    or to going to sleep on not_full_cond_, or from waking up there onwards. */
module PrioQueue {
  import opened Runs

  datatype Item = Item(task: nat, attr: int)

  /** The queue, its watermarks, how many producers sleep on not_full_cond_ and how many have
      been notified and not run yet; and the history of accepted and taken items. */
  datatype State = State(
    items: multiset<Item>, active: bool, hwm: nat, lwm: nat,
    asleep: nat, notified: nat,
    accepted: multiset<Item>, taken: seq<Item>)

  ghost predicate Init(q: State) {
    && q.lwm <= q.hwm && q.active && q.items == multiset{} && q.asleep == 0 && q.notified == 0
    && q.accepted == multiset{} && q.taken == []
  }

  /** How a critical section of put ends. */
  datatype PutEnd = Accepted | Asleep | Rejected

  predicate Full(q: State) { |q.items| >= q.hwm }

  function Push(q: State, x: Item): State {
    q.(items := q.items + multiset{x}, accepted := q.accepted + multiset{x})
  }

  /** The end of put_ once the producer is awake: sleep again while the queue is active and
      full, or give up there if the time is over; otherwise refuse or push. */
  ghost predicate PutEnds(q: State, x: Item, expired: bool, q': State, end: PutEnd) {
    if q.active && Full(q) then
      if expired then q' == q && end == Rejected
      else q' == q.(asleep := q.asleep + 1) && end == Asleep
    else if !q.active then q' == q && end == Rejected
    else q' == Push(q, x) && end == Accepted
  }

  /** put up to its first sleep. */
  ghost predicate PutStep(q: State, x: Item, q': State, end: PutEnd) {
    PutEnds(q, x, false, q', end)
  }

  /** A producer wakes up inside put: notified, or for no reason, or because its time is over. */
  ghost predicate ResumeStep(q: State, x: Item, wasNotified: bool, expired: bool, q': State, end: PutEnd) {
    if wasNotified then q.notified > 0 && PutEnds(q.(notified := q.notified - 1), x, expired, q', end)
    else q.asleep > 0 && PutEnds(q.(asleep := q.asleep - 1), x, expired, q', end)
  }

  predicate IsTop(items: multiset<Item>, x: Item) {
    x in items && forall y :: y in items ==> y.attr <= x.attr
  }

  function NotifyOne(q: State): State {
    if q.asleep > 0 then q.(asleep := q.asleep - 1, notified := q.notified + 1) else q
  }

  function NotifyAll(q: State): State { q.(asleep := 0, notified := q.notified + q.asleep) }

  /** What try_take_ does after pop. */
  function WakeProducers(q: State): State {
    if |q.items| <= q.lwm then if q.lwm == q.hwm then NotifyOne(q) else NotifyAll(q) else q
  }

  function Pop(q: State, x: Item): State {
    q.(items := q.items - multiset{x}, taken := q.taken + [x])
  }

  /** try_take on a non-empty queue takes x. */
  ghost predicate TakeStep(q: State, x: Item, q': State) {
    IsTop(q.items, x) && q' == WakeProducers(Pop(q, x))
  }

  function Deactivate(q: State): State { NotifyAll(q.(active := false)) }

  /** The critical sections. */
  datatype Section =
    | Put(x: Item, end: PutEnd)
    | Resume(x: Item, wasNotified: bool, expired: bool, end: PutEnd)
    | Take(x: Item)
    | Close

  ghost predicate Does(q: State, c: Section, q': State) {
    match c
    case Put(x, end) => PutStep(q, x, q', end)
    case Resume(x, n, e, end) => ResumeStep(q, x, n, e, q', end)
    case Take(x) => TakeStep(q, x, q')
    case Close => q' == Deactivate(q)
  }

  ghost predicate Next(q: State, q': State) { exists c :: Does(q, c, q') }

  /** Watermark wake-ups strand no producer; the bounds hold; nothing is lost or made up. */
  ghost predicate Inv(q: State) {
    && q.lwm <= q.hwm && |q.items| <= q.hwm
    && (q.asleep > 0 ==> q.active)
    && (q.asleep > 0 && q.lwm < q.hwm ==> |q.items| > q.lwm)
    && (q.asleep > 0 && q.lwm == q.hwm ==> |q.items| + q.notified >= q.hwm)
    && q.accepted == q.items + multiset(q.taken)
  }

  lemma PutEndsInv(q: State, x: Item, expired: bool, q': State, end: PutEnd)
    requires Inv(q) && PutEnds(q, x, expired, q', end)
    ensures Inv(q')
  {
  }

  lemma ResumeInv(q: State, x: Item, wasNotified: bool, expired: bool, q': State, end: PutEnd)
    requires Inv(q) && ResumeStep(q, x, wasNotified, expired, q', end)
    ensures Inv(q')
  {
    if !wasNotified {
      PutEndsInv(q.(asleep := q.asleep - 1), x, expired, q', end);
    }
  }

  lemma PopInv(q: State, x: Item)
    requires q.accepted == q.items + multiset(q.taken) && x in q.items
    ensures var q' := Pop(q, x); q'.accepted == q'.items + multiset(q'.taken) && |q'.items| == |q.items| - 1
  {
    assert q.items == (q.items - multiset{x}) + multiset{x};
  }

  lemma TakeInv(q: State, x: Item, q': State)
    requires Inv(q) && TakeStep(q, x, q')
    ensures Inv(q')
  {
    PopInv(q, x);
  }

  lemma NextInv(q: State, q': State)
    requires Inv(q) && Next(q, q')
    ensures Inv(q')
  {
    var c :| Does(q, c, q');
    match c {
      case Put(x, end) => PutEndsInv(q, x, false, q', end);
      case Resume(x, n, e, end) => ResumeInv(q, x, n, e, q', end);
      case Take(x) => TakeInv(q, x, q');
      case Close =>
    }
  }

  /** What put does, on its first section (no sleeper wakes) or a later one: it pushes the item it
      was given, and records it, exactly on an active queue with room; it is refused exactly on an
      inactive queue or when its time is over; and otherwise it sleeps. */
  lemma PutExact(q: State, c: Section, x: Item, expired: bool, end: PutEnd, q': State)
    requires Does(q, c, q')
    requires (c == Put(x, end) && !expired) || (exists n :: c == Resume(x, n, expired, end))
    ensures end == Accepted <==> q.active && |q.items| < q.hwm
    ensures end == Rejected <==> !q.active || (expired && |q.items| >= q.hwm)
    ensures q'.items == q.items + (if end == Accepted then multiset{x} else multiset{})
    ensures q'.accepted == q.accepted + (if end == Accepted then multiset{x} else multiset{})
    ensures q'.asleep + q'.notified
         == q.asleep + q.notified - (if c.Resume? then 1 else 0) + (if end == Asleep then 1 else 0)
    ensures q'.active == q.active && q'.hwm == q.hwm && q'.lwm == q.lwm && q'.taken == q.taken
  {
  }

  /** What try_take does: it removes the item it hands out, which is one of the highest; at or below
      the low watermark it wakes the producers, one if the watermarks coincide and all otherwise. */
  lemma TakeExact(q: State, x: Item, q': State)
    requires Does(q, Take(x), q')
    ensures q.items == q'.items + multiset{x} && (forall y :: y in q.items ==> y.attr <= x.attr)
    ensures q'.taken == q.taken + [x] && q'.accepted == q.accepted && q'.active == q.active
    ensures q'.hwm == q.hwm && q'.lwm == q.lwm && q'.asleep + q'.notified == q.asleep + q.notified
    ensures q'.asleep == if |q'.items| > q.lwm then q.asleep
                         else if q.lwm == q.hwm && q.asleep > 0 then q.asleep - 1 else 0
  {
  }

  /** What deactivate does: the queue is inactive, every sleeper is notified, and the items stay. */
  lemma CloseExact(q: State, q': State)
    requires Does(q, Close, q')
    ensures !q'.active && q'.asleep == 0 && q'.notified == q.asleep + q.notified
    ensures q'.items == q.items && q'.accepted == q.accepted && q'.taken == q.taken
    ensures q'.hwm == q.hwm && q'.lwm == q.lwm
  {
  }

  ghost predicate Run(tr: seq<State>) { IsRun(Init, Next, tr) }

  lemma RunInv(tr: seq<State>, i: nat)
    requires Run(tr) && i < |tr|
    ensures Inv(tr[i])
  {
    forall q, q' | Inv(q) && Next(q, q') ensures Inv(q') { NextInv(q, q'); }
    Always(Init, Next, Inv, tr, i);
  }

  /** No producer is stranded below the watermark, none sleeps once the queue is
      inactive, and the queue never holds more than the high watermark. */
  lemma NoStrandedProducer(tr: seq<State>, i: nat)
    requires Run(tr) && i < |tr| && tr[i].asleep > 0
    ensures tr[i].active
    ensures tr[i].lwm < tr[i].hwm ==> tr[i].lwm < |tr[i].items| <= tr[i].hwm
    ensures tr[i].lwm == tr[i].hwm ==> |tr[i].items| + tr[i].notified >= tr[i].hwm
  {
    RunInv(tr, i);
  }

  /** Every accepted item is in the queue or was taken, once. */
  lemma QueueConserves(tr: seq<State>, i: nat)
    requires Run(tr) && i < |tr|
    ensures tr[i].accepted == tr[i].items + multiset(tr[i].taken) && |tr[i].items| <= tr[i].hwm
  {
    RunInv(tr, i);
  }

  lemma InactiveStep(q: State, c: Section, q': State)
    requires Inv(q) && Does(q, c, q') && !q.active
    ensures !q'.active && q'.accepted == q.accepted && q'.items <= q.items
  {
    match c {
      case Put(x, end) =>
      case Resume(x, n, e, end) =>
      case Take(x) => WakeKeeps(Pop(q, x));
      case Close => WakeKeeps(q);
    }
  }

  /** A queue that has been deactivated stays inactive and accepts nothing for ever after. */
  lemma InactiveForever(tr: seq<State>, i: nat, j: nat)
    requires Run(tr) && i <= j < |tr| && !tr[i].active
    ensures !tr[j].active && tr[j].accepted == tr[i].accepted && tr[j].items <= tr[i].items
  {
    var a := tr[i];
    var shut := (q: State) => !q.active && q.accepted == a.accepted && q.items <= a.items;
    InitsInv();
    forall q, q' | Inv(q) && Next(q, q') && shut(q) ensures shut(q') {
      var c :| Does(q, c, q');
      InactiveStep(q, c, q');
    }
    Forever(Init, Next, Inv, shut, tr, i, j);
  }

  /** The invariant, as Forever asks for it. */
  lemma InitsInv()
    ensures forall q :: Init(q) ==> Inv(q)
    ensures forall q, q' :: Inv(q) && Next(q, q') ==> Inv(q')
  {
    forall q, q' | Inv(q) && Next(q, q') ensures Inv(q') { NextInv(q, q'); }
  }

  lemma WakeKeeps(q: State)
    ensures var q' := WakeProducers(q);
            q'.items == q.items && q'.taken == q.taken && q'.accepted == q.accepted && q'.active == q.active
  {
  }

  /** From the n-th take on, each item taken is at least as high as all taken after it and all
      still in the queue. */
  ghost predicate Descends(q: State, n: nat) {
    && n <= |q.taken|
    && (forall k, m :: n <= k < m < |q.taken| ==> q.taken[m].attr <= q.taken[k].attr)
    && (forall k, y :: n <= k < |q.taken| && y in q.items ==> y.attr <= q.taken[k].attr)
  }

  /** What was accepted when the takes began, and what has become of them. */
  ghost predicate Since(q: State, taken: seq<Item>, accepted: multiset<Item>) {
    && taken <= q.taken && accepted <= q.accepted
    && (q.accepted == accepted ==> Descends(q, |taken|))
  }

  lemma SinceKept(q: State, q': State, taken: seq<Item>, accepted: multiset<Item>)
    requires Since(q, taken, accepted) && Next(q, q')
    ensures Since(q', taken, accepted)
  {
    var c :| Does(q, c, q');
    match c {
      case Put(x, end) => PutSince(q, x, false, q', end, taken, accepted);
      case Resume(x, n, e, end) =>
        var q0 := if n then q.(notified := q.notified - 1) else q.(asleep := q.asleep - 1);
        PutSince(q0, x, e, q', end, taken, accepted);
      case Take(x) =>
        WakeKeeps(Pop(q, x));
        TakeSince(q, x, q', taken, accepted);
      case Close => WakeKeeps(q);
    }
  }

  lemma PutSince(q: State, x: Item, expired: bool, q': State, end: PutEnd, taken: seq<Item>, accepted: multiset<Item>)
    requires Since(q, taken, accepted) && PutEnds(q, x, expired, q', end)
    ensures Since(q', taken, accepted)
  {
    if end == Accepted {
      assert |q'.accepted| == |q.accepted| + 1;
      assert q'.accepted == accepted ==> |accepted| <= |q.accepted| by { SubsetSmaller(accepted, q.accepted); }
    }
  }

  lemma SubsetSmaller(a: multiset<Item>, b: multiset<Item>)
    requires a <= b
    ensures |a| <= |b|
  {
    assert b == a + (b - a);
  }

  lemma TakeSince(q: State, x: Item, q': State, taken: seq<Item>, accepted: multiset<Item>)
    requires Since(q, taken, accepted) && IsTop(q.items, x)
    requires q'.items == q.items - multiset{x} && q'.taken == q.taken + [x] && q'.accepted == q.accepted
    ensures Since(q', taken, accepted)
  {
    assert forall y :: y in q'.items ==> y in q.items;
  }

  /** Takes with no put accepted between them come out in order of priority. */
  lemma TakesDescend(tr: seq<State>, i: nat, j: nat)
    requires Run(tr) && i <= j < |tr| && tr[j].accepted == tr[i].accepted
    ensures tr[i].taken <= tr[j].taken && Descends(tr[j], |tr[i].taken|)
  {
    var a := tr[i];
    var since := (q: State) => Since(q, a.taken, a.accepted);
    InitsInv();
    forall q, q' | Inv(q) && Next(q, q') && since(q) ensures since(q') {
      SinceKept(q, q', a.taken, a.accepted);
    }
    Forever(Init, Next, Inv, since, tr, i, j);
  }

  lemma {:induction false} TopExists(items: multiset<Item>) returns (x: Item)
    requires items != multiset{}
    ensures IsTop(items, x)
    decreases |items|
  {
    var y :| y in items;
    var rest := items - multiset{y};
    if rest == multiset{} {
      assert items == multiset{y};
      x := y;
    } else {
      var z := TopExists(rest);
      x := if y.attr <= z.attr then z else y;
      forall w | w in items ensures w.attr <= x.attr {
        if w != y { assert w in rest; }
      }
    }
  }
}
