/** The barrier (barrier.cpp) as an object, with the threads that share it. */
module BarrierObject {
  import opened Barrier
  import opened Locks
  import opened Options
  import opened Runs
  import opened SpinMutex

  /** The thread at p has to lock mtx_ while somebody owns it. */
  predicate Blocks(g: Shared, p: PC) { (p.Lock? || p.Woken?) && g.owner.By? }

  /** Thread t has its turn: it makes its next access, or waits for mtx_. */
  ghost predicate Turned(s: State, t: Tid, s': State) {
    t < |s.th| && if Blocks(s.g, s.th[t].pc) then s' == s else ActStep(s, t, s') || NotifyStep(s, t, s')
  }

  class Cyclic {
    const initial: nat
    var current: int
    var cycle: bool
    const mtx: Mutex
    const th: array<Thread>
    ghost var owner: Owner
    ghost var leaders: seq<Tid>

    constructor (count: nat)
      requires count > 0
      ensures fresh(Repr()) && Valid() && Init(Current()) && th.Length == count
    {
      initial := count;
      current := count;
      cycle := true;
      mtx := new Mutex();
      th := new Thread[count](_ => Thread(Idle, []));
      owner := Free;
      leaders := [];
    }

    /** Throws invalid_argument, which is None here, when nobody is to take part. */
    static method Create(count: nat) returns (b: Option<Cyclic>)
      ensures b.Some? <==> count > 0
      ensures b.Some? ==>
          fresh(b.value.Repr()) && b.value.Valid() && Init(b.value.Current()) && b.value.th.Length == count
    {
      b := None;
      if count > 0 {
        var c := new Cyclic(count);
        b := Some(c);
      }
    }

    ghost function Repr(): set<object> { {this, mtx, th} }

    ghost predicate Valid()
      reads this, mtx
    {
      mtx.locked <==> owner.By?
    }

    ghost function Vars(): Shared
      reads this
    {
      Shared(initial, current, cycle, owner)
    }

    ghost function Current(): State
      reads Repr()
    {
      State(Vars(), th[..], leaders)
    }

    /** Entering wait: lock mtx_, read cycle_ and decrement current_; the last thread flips
        the cycle and resets the counter. */
    method Enter(t: Tid, p: PC) returns (p': PC)
      requires Valid() && (p.Idle? || p.Lock? || p.Arrive? || p.Flip?)
      modifies this`current, this`cycle, this`owner, mtx
      ensures Valid()
      ensures if Blocks(old(Vars()), p) then p' == p && Vars() == old(Vars()) else Act(old(Vars()), p, t, Vars(), p')
    {
      p' := p;
      match p {
        case Idle =>
          p' := Lock;
        case Lock =>
          var ok := mtx.TryLock();
          if ok {
            owner := By(t);
            p' := Arrive;
          }
        case Arrive =>
          var was := cycle;
          current := current - 1;
          p' := if 0 == current then Flip else Test(was);
        case Flip =>
          cycle := !cycle;
          current := initial;
          p' := Notify;
      }
    }

    /** Waiting for the cycle to turn, and returning. */
    method Stay(t: Tid, p: PC) returns (p': PC)
      requires Valid() && (p.Test? || p.Asleep? || p.Woken? || p.Unlock?)
      modifies this`owner, mtx
      ensures Valid()
      ensures if Blocks(old(Vars()), p) then p' == p
          && Vars() == old(Vars()) else Act(old(Vars()), p, t, Vars(), p')
    {
      p' := p;
      match p {
        case Test(was) =>
          if was == cycle {
            mtx.Unlock();
            owner := Free;
            p' := Asleep(was);
          } else {
            p' := Unlock(false);
          }
        case Asleep(was) =>
          p' := Woken(was);
        case Woken(was) =>
          var ok := mtx.TryLock();
          if ok {
            owner := By(t);
            p' := Test(was);
          }
        case Unlock(result) =>
          mtx.Unlock();
          owner := Free;
          p' := Idle;
      }
    }

    /** cond_.notify_all by thread t, which then returns true. */
    method NotifyAll(t: Tid)
      requires t < th.Length && th[t].pc == Notify
      modifies th
      ensures th[t] == old(th[t]).(pc := Unlock(true))
      ensures forall u :: 0 <= u < th.Length && u != t ==> th[u] == Wake(old(th[u]))
    {
      for u := 0 to th.Length
        invariant forall v :: u <= v < th.Length ==> th[v] == old(th[v])
        invariant forall v :: 0 <= v < u ==> th[v] == Wake(old(th[v]))
      {
        th[u] := Wake(th[u]);
      }
      th[t] := th[t].(pc := Unlock(true));
    }

    /** Thread t moves on by one access, or waits because mtx_ is taken. */
    method Step(t: Tid)
      requires Valid() && t < th.Length
      modifies Repr()
      ensures Valid() && Turned(old(Current()), t, Current())
    {
      ghost var s := Current();
      var p := th[t].pc;
      if p.Notify? {
        NotifyAll(t);
        assert NotifyStep(s, t, Current());
      } else {
        var p';
        if p.Idle? || p.Lock? || p.Arrive? || p.Flip? {
          p' := Enter(t, p);
        } else {
          p' := Stay(t, p);
        }
        if p.Flip? { leaders := leaders + [t]; }
        th[t] := Thread(p', th[t].results + if p.Unlock? then [p.result] else []);
        if Blocks(s.g, p) {
          assert s.th[t].results + [] == s.th[t].results && th[t] == s.th[t];
          assert th[..] == s.th;
        } else {
          assert ActStep(s, t, Current());
        }
      }
    }

    /** Any schedule drives the object turn by turn, and through a run of the step machine. */
    method Execute(schedule: seq<Tid>) returns (ghost tr: seq<State>)
      requires Valid() && Init(Current()) && forall i :: 0 <= i < |schedule| ==> schedule[i] < th.Length
      modifies Repr()
      ensures Follows(Turned, schedule, tr) && tr[0] == old(Current()) && tr[|schedule|] == Current()
      ensures Run(Collapse(tr)) && forall s :: s in tr <==> s in Collapse(tr)
    {
      tr := [Current()];
      for k := 0 to |schedule|
        invariant Valid() && |tr| == k + 1 && tr[0] == old(Current()) && tr[k] == Current()
        invariant forall m :: 0 <= m < k ==> Turned(tr[m], schedule[m], tr[m + 1])
      {
        Step(schedule[k]);
        tr := tr + [Current()];
      }
      FollowsRun(Init, Next, Turned, schedule, tr);
    }
  }
}
