/** The watermarked priority queue (bounded_prio_queue.hpp) as an object; every method is one
    critical section of mtx_. std::priority_queue is a multiset from which some item of the
    highest priority is popped. */
module QueueObject {
  import opened PrioQueue
  import opened Options
  import opened Runs

  /** A call that a thread makes, or a producer inside put that wakes up. */
  datatype Turn = CallPut(x: Item) | WakeUp(x: Item, wasNotified: bool, expired: bool) | CallTake | CallDeactivate

  class BoundedPrioQueue {
    var queue: multiset<Item>
    var active: bool
    const hwm: nat
    const lwm: nat
    var asleep: nat
    var notified: nat
    ghost var accepted: multiset<Item>
    ghost var taken: seq<Item>

    constructor (high: nat, low: nat)
      requires low <= high
      ensures Init(Current()) && hwm == high && lwm == low
    {
      queue, active, hwm, lwm, asleep, notified := multiset{}, true, high, low, 0, 0;
      accepted, taken := multiset{}, [];
    }

    /** Throws invalid_watermark, which is None here, when the watermarks are crossed. */
    static method Create(high: nat, low: nat) returns (q: Option<BoundedPrioQueue>)
      ensures q.Some? <==> low <= high
      ensures q.Some? ==> fresh(q.value) && Init(q.value.Current()) && q.value.hwm == high && q.value.lwm == low
    {
      q := None;
      if low <= high {
        var b := new BoundedPrioQueue(high, low);
        q := Some(b);
      }
    }

    ghost function Current(): PrioQueue.State
      reads this
    {
      State(queue, active, hwm, lwm, asleep, notified, accepted, taken)
    }

    /** put_ from where the producer is awake and owns mtx_. */
    method PutRest(x: Item, expired: bool) returns (end: PutEnd)
      modifies this
      ensures PutEnds(old(Current()), x, expired, Current(), end)
    {
      if active && |queue| >= hwm {
        if expired {
          end := Rejected;
        } else {
          asleep := asleep + 1;
          end := Asleep;
        }
      } else if !active {
        end := Rejected;
      } else {
        queue := queue + multiset{x};
        accepted := accepted + multiset{x};
        end := Accepted;
      }
    }

    method Put(x: Item) returns (end: PutEnd)
      modifies this
      ensures PutStep(old(Current()), x, Current(), end)
    {
      end := PutRest(x, false);
    }

    method Resume(x: Item, wasNotified: bool, expired: bool) returns (end: PutEnd)
      requires if wasNotified then notified > 0 else asleep > 0
      modifies this
      ensures ResumeStep(old(Current()), x, wasNotified, expired, Current(), end)
    {
      ghost var q := Current();
      if wasNotified {
        notified := notified - 1;
        end := PutRest(x, expired);
        assert PutEnds(q.(notified := q.notified - 1), x, expired, Current(), end);
      } else {
        asleep := asleep - 1;
        end := PutRest(x, expired);
        assert PutEnds(q.(asleep := q.asleep - 1), x, expired, Current(), end);
      }
    }

    method NotifyProducers(all: bool)
      modifies this`asleep, this`notified
      ensures Current() == if all then NotifyAll(old(Current())) else NotifyOne(old(Current()))
    {
      if all {
        asleep, notified := 0, notified + asleep;
      } else if asleep > 0 {
        asleep, notified := asleep - 1, notified + 1;
      }
    }

    method TryTake() returns (r: Option<Item>)
      modifies this
      ensures if old(queue) == multiset{} then r == None && Current() == old(Current())
              else r.Some? && TakeStep(old(Current()), r.value, Current())
    {
      r := None;
      if queue != multiset{} {
        ghost var top := TopExists(queue);
        var x :| x in queue && forall y :: y in queue ==> y.attr <= x.attr;
        r := Some(x);
        queue := queue - multiset{x};
        taken := taken + [x];
        if |queue| <= lwm {
          NotifyProducers(lwm != hwm);
        }
      }
    }

    method Deactivate()
      modifies this
      ensures Current() == PrioQueue.Deactivate(old(Current()))
    {
      active := false;
      NotifyProducers(true);
    }

    /** One turn of the schedule. */
    method Serve(turn: Turn)
      modifies this
      ensures Turned(old(Current()), turn, Current())
    {
      match turn {
        case CallPut(x) =>
          var end := Put(x);
        case WakeUp(x, wasNotified, expired) =>
          if if wasNotified then notified > 0 else asleep > 0 {
            var end := Resume(x, wasNotified, expired);
          }
        case CallTake =>
          var r := TryTake();
        case CallDeactivate =>
          Deactivate();
      }
    }

    /** Any sequence of calls drives the object turn by turn, and through a run of the step
        machine. */
    method Execute(schedule: seq<Turn>) returns (ghost tr: seq<PrioQueue.State>)
      requires Init(Current())
      modifies this
      ensures Follows(Turned, schedule, tr) && tr[0] == old(Current()) && tr[|schedule|] == Current()
      ensures Run(Collapse(tr)) && forall q :: q in tr <==> q in Collapse(tr)
    {
      tr := [Current()];
      for k := 0 to |schedule|
        invariant |tr| == k + 1 && tr[0] == old(Current()) && tr[k] == Current()
        invariant forall m :: 0 <= m < k ==> Turned(tr[m], schedule[m], tr[m + 1])
      {
        Serve(schedule[k]);
        tr := tr + [Current()];
      }
      TurnsAreSteps();
      FollowsRun(Init, Next, Turned, schedule, tr);
    }
  }

  /** What the turn makes of the queue: the critical section of its call; nothing if there is
      nobody to wake up or nothing to take. */
  ghost predicate Turned(q: PrioQueue.State, turn: Turn, q': PrioQueue.State) {
    match turn
    case CallPut(x) => exists end :: PutStep(q, x, q', end)
    case WakeUp(x, wasNotified, expired) =>
      if if wasNotified then q.notified > 0 else q.asleep > 0 then
        exists end :: ResumeStep(q, x, wasNotified, expired, q', end)
      else q' == q
    case CallTake => if q.items == multiset{} then q' == q else exists x :: TakeStep(q, x, q')
    case CallDeactivate => q' == PrioQueue.Deactivate(q)
  }

  lemma TurnedSteps(q: PrioQueue.State, turn: Turn, q': PrioQueue.State)
    requires Turned(q, turn, q') && q' != q
    ensures Next(q, q')
  {
    match turn {
      case CallPut(x) =>
        var end :| PutStep(q, x, q', end);
        assert Does(q, Section.Put(x, end), q');
      case WakeUp(x, wasNotified, expired) =>
        var end :| ResumeStep(q, x, wasNotified, expired, q', end);
        assert Does(q, Section.Resume(x, wasNotified, expired, end), q');
      case CallTake =>
        var x :| TakeStep(q, x, q');
        assert Does(q, Section.Take(x), q');
      case CallDeactivate =>
        assert Does(q, Close, q');
    }
  }

  lemma TurnsAreSteps()
    ensures forall q, x, q' :: Turned(q, x, q') ==> q' == q || Next(q, q')
  {
    forall q, x, q' | Turned(q, x, q') && q' != q ensures Next(q, q') {
      TurnedSteps(q, x, q');
    }
  }
}
