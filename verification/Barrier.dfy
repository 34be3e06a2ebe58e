/** The sense-reversing barrier (barrier.cpp), used over and over by exactly as many
    threads as it was built for. mtx_ serialises its critical sections; cond_ is the spin
    condition variable: waiting gives up mtx_ and falls asleep in one step, notify_all
    wakes everybody who sleeps, and a sleeper may also wake up for no reason. */
module Barrier {
  import opened Counting
  import opened Locks
  import opened Runs

  datatype PC =
    | Idle                    // between two calls of wait
    | Lock                    // lock mtx_
    | Arrive                  // read cycle_, decrement current_
    | Flip                    // last one: flip cycle_, reset current_
    | Notify                  // last one: cond_.notify_all
    | Test(cycle: bool)       // while (cycle == cycle_)
    | Asleep(cycle: bool)     // inside cond_.wait
    | Woken(cycle: bool)      // inside cond_.wait: lock mtx_ again
    | Unlock(result: bool)    // unlock mtx_ and return

  /** results: what wait has returned to this thread, round by round. */
  datatype Thread = Thread(pc: PC, results: seq<bool>)

  datatype Shared = Shared(initial: nat, current: int, cycle: bool, owner: Owner)

  /** leaders: who flipped cycle_, round by round. */
  datatype State = State(g: Shared, th: seq<Thread>, leaders: seq<Tid>)

  ghost predicate Init(s: State) {
    && |s.th| > 0
    && s.g == Shared(|s.th|, |s.th|, true, Free) && s.leaders == []
    && forall t :: 0 <= t < |s.th| ==> s.th[t] == Thread(Idle, [])
  }

  /** A step that concerns the thread itself and the barrier's fields. */
  ghost predicate Act(g: Shared, p: PC, t: Tid, g': Shared, p': PC) {
    match p
    case Idle => g' == g && p' == Lock
    case Lock => g.owner == Free && g' == g.(owner := By(t)) && p' == Arrive
    case Arrive =>
      && g' == g.(current := g.current - 1)
      && p' == if g.current - 1 == 0 then Flip else Test(g.cycle)
    case Flip => g' == g.(cycle := !g.cycle, current := g.initial) && p' == Notify
    case Test(c) =>
      if c == g.cycle then g' == g.(owner := Free) && p' == Asleep(c) else g' == g && p' == Unlock(false)
    case Asleep(c) => g' == g && p' == Woken(c)
    case Woken(c) => g.owner == Free && g' == g.(owner := By(t)) && p' == Test(c)
    case Unlock(r) => g' == g.(owner := Free) && p' == Idle
    case Notify => false
  }

  function Wake(th: Thread): Thread { if th.pc.Asleep? then th.(pc := Woken(th.pc.cycle)) else th }

  ghost predicate ActStep(s: State, t: Tid, s': State)
    requires t < |s.th|
  {
    && |s'.th| == |s.th|
    && s'.th == s.th[t := s'.th[t]]
    && Act(s.g, s.th[t].pc, t, s'.g, s'.th[t].pc)
    && s'.th[t].results == s.th[t].results + (if s.th[t].pc.Unlock? then [s.th[t].pc.result] else [])
    && s'.leaders == s.leaders + (if s.th[t].pc.Flip? then [t] else [])
  }

  ghost predicate NotifyStep(s: State, t: Tid, s': State)
    requires t < |s.th|
  {
    && s.th[t].pc == Notify
    && s'.g == s.g && s'.leaders == s.leaders
    && |s'.th| == |s.th|
    && s'.th[t] == s.th[t].(pc := Unlock(true))
    && forall u :: 0 <= u < |s.th| && u != t ==> s'.th[u] == Wake(s.th[u])
  }

  ghost predicate Next(s: State, s': State) {
    exists t: Tid :: t < |s.th| && (ActStep(s, t, s') || NotifyStep(s, t, s'))
  }

  // The invariant ---------------------------------------------------------------

  /** Owns mtx_. */
  predicate Inside(p: PC) { p.Arrive? || p.Flip? || p.Notify? || p.Test? || p.Unlock? }

  /** Has been counted in its round and not returned from it. */
  predicate Arrived(p: PC) {
    p.Flip? || p.Notify? || p.Test? || p.Asleep? || p.Woken? || p.Unlock?
  }

  /** Has arrived in round k. */
  function ArrivedIn(k: nat): Thread -> bool {
    (th: Thread) => Arrived(th.pc) && |th.results| == k
  }

  /** What holds of thread t; |leaders| is the current round. */
  ghost predicate Local(g: Shared, leaders: seq<Tid>, t: Tid, th: Thread) {
    var k, F := |th.results|, |leaders|;
    && (if Arrived(th.pc) then k == F || k + 1 == F else k == F)
    && (th.pc.Test? || th.pc.Asleep? || th.pc.Woken? ==> th.pc.cycle == (k % 2 == 0) && (k < F ==> leaders[k] != t))
    && (th.pc.Flip? ==> k == F && g.current == 0)
    && (th.pc.Notify? ==> k + 1 == F && leaders[k] == t)
    && (th.pc.Unlock? ==> k + 1 == F && th.pc.result == (leaders[k] == t))
    && (forall j :: 0 <= j < k ==> th.results[j] == (leaders[j] == t))
  }

  ghost predicate Inv(s: State) {
    && |s.th| > 0 && s.g.initial == |s.th|
    && (forall t :: 0 <= t < |s.th| ==> (s.g.owner == By(t) <==> Inside(s.th[t].pc)))
    && s.g.cycle == (|s.leaders| % 2 == 0)
    && s.g.current == |s.th| - Count(s.th, ArrivedIn(|s.leaders|))
    && (s.g.current == 0 ==> s.g.owner.By? && s.g.owner.t < |s.th| && s.th[s.g.owner.t].pc.Flip?)
    && (forall t :: 0 <= t < |s.th| ==> Local(s.g, s.leaders, t, s.th[t]))
    && (forall k :: 0 <= k < |s.leaders| ==> s.leaders[k] < |s.th|)
    && (forall t :: 0 <= t < |s.th| && s.th[t].pc.Asleep? && |s.th[t].results| < |s.leaders| ==>
          s.g.owner.By? && s.g.owner.t < |s.th| && s.th[s.g.owner.t].pc.Notify?)
  }

  lemma InitInv(s: State)
    requires Init(s)
    ensures Inv(s)
  {
    CountZero(s.th, ArrivedIn(0));
  }

  /** The last arrival of a round finds everybody arrived in it. */
  lemma AllArrived(s: State)
    requires Inv(s) && s.g.current == 0
    ensures forall t :: 0 <= t < |s.th| ==> Arrived(s.th[t].pc) && |s.th[t].results| == |s.leaders|
  {
    CountEvery(s.th, ArrivedIn(|s.leaders|));
    forall t | 0 <= t < |s.th| ensures Arrived(s.th[t].pc) && |s.th[t].results| == |s.leaders| {
      assert ArrivedIn(|s.leaders|)(s.th[t]);
    }
  }

  lemma FlipInv(s: State, t: Tid, s': State)
    requires Inv(s) && t < |s.th| && s.th[t].pc.Flip? && ActStep(s, t, s')
    ensures Inv(s')
  {
    AllArrived(s);
    CountZero(s'.th, ArrivedIn(|s'.leaders|));
  }

  /** An access other than a flip leaves everybody else's view alone. */
  lemma ActLocal(g: Shared, leaders: seq<Tid>, t: Tid, th: Thread, g': Shared, th': Thread)
    requires Local(g, leaders, t, th) && Act(g, th.pc, t, g', th'.pc) && !th.pc.Flip?
    requires th'.results == th.results + (if th.pc.Unlock? then [th.pc.result] else [])
    requires g.cycle == (|leaders| % 2 == 0)
    ensures Local(g', leaders, t, th')
    ensures g'.cycle == g.cycle && g'.initial == g.initial
    ensures Arrived(th'.pc) && |th'.results| == |leaders| <==>
            (Arrived(th.pc) && |th.results| == |leaders|) || th.pc.Arrive?
    ensures g'.current == g.current - (if th.pc.Arrive? then 1 else 0)
    ensures th'.pc.Asleep? && !th.pc.Asleep? ==> |th'.results| == |leaders|
    ensures Inside(th'.pc) == Inside(th.pc) ==> g'.owner == g.owner
    ensures !Inside(th'.pc) && Inside(th.pc) ==> g'.owner == Free
    ensures Inside(th'.pc) && !Inside(th.pc) ==> g.owner == Free && g'.owner == By(t)
    ensures th'.pc.Flip? <==> th.pc.Arrive? && g.current == 1
    ensures !th.pc.Notify? && !th'.pc.Notify?
  {
  }

  lemma ActCount(s: State, t: Tid, s': State)
    requires Inv(s) && t < |s.th| && !s.th[t].pc.Flip? && ActStep(s, t, s')
    ensures s'.g.current == |s'.th| - Count(s'.th, ArrivedIn(|s'.leaders|))
    ensures s'.g.current == 0 ==> s'.th[t].pc.Flip? || s.g.current == 0
  {
    ActLocal(s.g, s.leaders, t, s.th[t], s'.g, s'.th[t]);
    CountUpdate(s.th, t, s'.th[t], ArrivedIn(|s.leaders|));
  }

  lemma ActInv(s: State, t: Tid, s': State)
    requires Inv(s) && t < |s.th| && !s.th[t].pc.Flip? && ActStep(s, t, s')
    ensures Inv(s')
  {
    ActLocal(s.g, s.leaders, t, s.th[t], s'.g, s'.th[t]);
    ActCount(s, t, s');
    assert s'.leaders == s.leaders;
    if s.g.current == 0 {
      AllArrived(s);
      assert s.g.owner.t != t;
    }
    forall u | 0 <= u < |s'.th| ensures Local(s'.g, s'.leaders, u, s'.th[u]) {
      if u != t {
        assert s'.th[u] == s.th[u] && Local(s.g, s.leaders, u, s.th[u]);
        if s.th[u].pc.Flip? {
          assert s.g.owner == By(u);
          AllArrived(s);
        }
      }
    }
  }

  lemma NotifyInv(s: State, t: Tid, s': State)
    requires Inv(s) && t < |s.th| && NotifyStep(s, t, s')
    ensures Inv(s')
  {
    CountSame(s.th, s'.th, ArrivedIn(|s.leaders|));
  }

  lemma NextInv(s: State, s': State)
    requires Inv(s) && Next(s, s')
    ensures Inv(s')
  {
    var t: Tid :| t < |s.th| && (ActStep(s, t, s') || NotifyStep(s, t, s'));
    if NotifyStep(s, t, s') {
      NotifyInv(s, t, s');
    } else if s.th[t].pc.Flip? {
      FlipInv(s, t, s');
    } else {
      ActInv(s, t, s');
    }
  }

  ghost predicate Run(tr: seq<State>) { IsRun(Init, Next, tr) }

  lemma RunInv(tr: seq<State>, i: nat)
    requires Run(tr) && i < |tr|
    ensures Inv(tr[i])
  {
    forall s | Init(s) ensures Inv(s) { InitInv(s); }
    forall s, s' | Inv(s) && Next(s, s') ensures Inv(s') { NextInv(s, s'); }
    Always(Init, Next, Inv, tr, i);
  }

  // What every run guarantees -----------------------------------------------------

  /** Nobody leaves round k before everybody has arrived in round k. */
  lemma NobodyLeavesEarly(tr: seq<State>, i: nat, t: Tid, u: Tid)
    requires Run(tr) && i < |tr| && t < |tr[i].th| && u < |tr[i].th| && tr[i].th[t].pc.Unlock?
    ensures var k := |tr[i].th[t].results|;
            |tr[i].th[u].results| > k || (|tr[i].th[u].results| == k && Arrived(tr[i].th[u].pc))
  {
    RunInv(tr, i);
    assert Local(tr[i].g, tr[i].leaders, t, tr[i].th[t]);
    assert Local(tr[i].g, tr[i].leaders, u, tr[i].th[u]);
  }

  /** No two threads are ever more than one completed round apart. */
  lemma RoundsTogether(tr: seq<State>, i: nat, t: Tid, u: Tid)
    requires Run(tr) && i < |tr| && t < |tr[i].th| && u < |tr[i].th|
    ensures |tr[i].th[t].results| <= |tr[i].th[u].results| + 1
  {
    RunInv(tr, i);
    assert Local(tr[i].g, tr[i].leaders, t, tr[i].th[t]);
    assert Local(tr[i].g, tr[i].leaders, u, tr[i].th[u]);
  }

  /** In every round exactly one thread, the one that flipped cycle_, gets true. */
  lemma OneLeaderPerRound(tr: seq<State>, i: nat, k: nat)
    requires Run(tr) && i < |tr| && k < |tr[i].leaders|
    ensures tr[i].leaders[k] < |tr[i].th|
    ensures forall t :: 0 <= t < |tr[i].th| && k < |tr[i].th[t].results| ==>
              tr[i].th[t].results[k] == (t == tr[i].leaders[k])
  {
    RunInv(tr, i);
    forall t | 0 <= t < |tr[i].th| && k < |tr[i].th[t].results|
      ensures tr[i].th[t].results[k] == (t == tr[i].leaders[k]) {
      assert Local(tr[i].g, tr[i].leaders, t, tr[i].th[t]);
    }
  }

  /** Nobody sleeps through the end of a round: once the notification has gone out, all
      sleepers wait for the round under way; and not all threads are asleep. */
  lemma NobodyStranded(tr: seq<State>, i: nat)
    requires Run(tr) && i < |tr|
    ensures (forall u :: 0 <= u < |tr[i].th| ==> !tr[i].th[u].pc.Notify?) ==>
              forall t :: 0 <= t < |tr[i].th| && tr[i].th[t].pc.Asleep? ==> |tr[i].th[t].results| == |tr[i].leaders|
    ensures exists t :: 0 <= t < |tr[i].th| && !tr[i].th[t].pc.Asleep?
  {
    RunInv(tr, i);
    var s := tr[i];
    forall t | 0 <= t < |s.th| && s.th[t].pc.Asleep? && forall u :: 0 <= u < |s.th| ==> !s.th[u].pc.Notify?
      ensures |s.th[t].results| == |s.leaders| {
      assert Local(s.g, s.leaders, t, s.th[t]);
    }
    if forall t :: 0 <= t < |s.th| ==> s.th[t].pc.Asleep? {
      forall t | 0 <= t < |s.th| ensures ArrivedIn(|s.leaders|)(s.th[t]) {
        assert Local(s.g, s.leaders, t, s.th[t]);
      }
      CountFull(s.th, ArrivedIn(|s.leaders|));
    }
  }
}
