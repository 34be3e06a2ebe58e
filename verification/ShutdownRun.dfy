/** A run of the pool in which shutdown returns although an accepted task was never completed:
    it was not complete after its first run, so the worker put it back into its own deque,
    and the exit test of the worker looks at the global queue only. */
module ShutdownRun {
  import opened Locks
  import opened Pool
  import opened Runs
  import FS = FastSemaphore
  import PQ = PrioQueue

  const TASK := PQ.Item(0, 0)

  /** Thread 0, a worker, at w and thread 1, outside the pool, at c. */
  ghost function Pair(g: Shared, sem: FS.State, w: PC, c: PC, latched: bool, taker: seq<Tid>, led: Ledger): State {
    State(g, sem, [w, c], [latched, false], taker, led)
  }

  ghost function Sem(count: int, active: bool, posted: nat, closed: bool, a: FS.PC, b: FS.PC): FS.State {
    FS.State(0, FS.Shared(count, active, 0), [a, b], FS.History(posted, 0, 0, 0, closed))
  }

  /** The worker moves, and the semaphore stays or begins a call in it. */
  lemma WorkerMoves(g: Shared, sem: FS.State, w: PC, c: PC, latched: bool, taker: seq<Tid>, led: Ledger,
                    g': Shared, sem': FS.State, w': PC, latched': bool, taker': seq<Tid>, led': Ledger)
    requires |sem.pc| == 2 == |sem'.pc| == |led.own| && sem.pc[0] == FS.Idle && Worker(w)
    requires if sem'.pc[0] == FS.Idle then sem' == sem else FS.Step(sem, 0, sem')
    requires WorkerStep(g, w, latched, 0, g', w', sem'.pc[0]) && (sem'.pc[0] != FS.Idle <==> InSem(w'))
    requires latched' == (latched || (w.Check? && g.shtdwn)) && Books(led, w, 0, led', w')
    requires taker' == if g'.q.taken == g.q.taken then taker else taker + [0]
    ensures Next(Pair(g, sem, w, c, latched, taker, led), Pair(g', sem', w', c, latched', taker', led'))
  {
    assert [w', c] == [w, c][0 := w'] && [latched', false] == [latched, false][0 := latched'];
    Assemble(Pair(g, sem, w, c, latched, taker, led), 0, Pair(g', sem', w', c, latched', taker', led'));
  }

  /** The other thread moves. */
  lemma ClientMoves(g: Shared, sem: FS.State, w: PC, c: PC, latched: bool, taker: seq<Tid>, led: Ledger,
                    g': Shared, sem': FS.State, c': PC)
    requires |sem.pc| == 2 == |sem'.pc| == |led.own| && sem.pc[1] == FS.Idle && !Worker(c)
    requires if sem'.pc[1] == FS.Idle then sem' == sem else FS.Step(sem, 1, sem')
    requires OtherStep(g, c, AllExited([w, c]), 1, g', c', sem'.pc[1]) && (sem'.pc[1] != FS.Idle <==> InSem(c'))
    requires g'.q.taken == g.q.taken
    ensures Next(Pair(g, sem, w, c, latched, taker, led), Pair(g', sem', w, c', latched, taker, led))
  {
    assert [w, c'] == [w, c][1 := c'] && [latched, false] == [latched, false][1 := false];
    Assemble(Pair(g, sem, w, c, latched, taker, led), 1, Pair(g', sem', w, c', latched, taker, led));
  }

  /** A thread moves inside the semaphore. */
  lemma SemMoves(g: Shared, sem: FS.State, w: PC, c: PC, latched: bool, taker: seq<Tid>, led: Ledger, t: Tid,
      sem': FS.State)
    requires t < 2 == |sem.pc| == |led.own| && sem.pc[t] != FS.Idle && InSem([w, c][t]) && FS.Step(sem, t, sem')
    ensures Next(Pair(g, sem, w, c, latched, taker, led), Pair(g, sem', w, c, latched, taker, led))
  {
    var s, s' := Pair(g, sem, w, c, latched, taker, led), Pair(g, sem', w, c, latched, taker, led);
    assert s'.pc == s.pc[t := s'.pc[t]] && s'.latch == s.latch[t := s.latch[t]];
    assert Step(s, t, s');
  }

  /** A call of the semaphore returns in thread 1. */
  lemma ClientReturns(g: Shared, sem: FS.State, w: PC, c: PC, latched: bool, taker: seq<Tid>, led: Ledger,
      g': Shared, c': PC)
    requires |sem.pc| == 2 == |led.own| && sem.pc[1] == FS.Idle && InSem(c) && !c.Wait? && ReturnStep(g, c, g', c')
    ensures Next(Pair(g, sem, w, c, latched, taker, led), Pair(g', sem, w, c', latched, taker, led))
  {
    assert Step(Pair(g, sem, w, c, latched, taker, led), 1, Pair(g', sem, w, c', latched, taker, led));
  }

  /** The worker comes back from the post that follows putting the task back. */
  lemma WorkerReturns(g: Shared, sem: FS.State, c: PC, latched: bool, taker: seq<Tid>, led: Ledger)
    requires |sem.pc| == 2 == |led.own| && sem.pc[0] == FS.Idle
    ensures Next(Pair(g, sem, Requeue, c, latched, taker, led), Pair(g, sem, Check, c, latched, taker, led))
  {
    assert Step(Pair(g, sem, Requeue, c, latched, taker, led), 0, Pair(g, sem, Check, c, latched, taker, led));
  }

  const FRESH := PQ.State(multiset{}, true, 1, 1, 0, 0, multiset{}, [])
  const QUEUED := PQ.Push(FRESH, TASK)
  const DRAINED := PQ.Pop(QUEUED, TASK)
  const CLOSED := PQ.Deactivate(DRAINED)

  const NOTHING := Ledger([0, 0], 0, 0)
  const KEPT := Ledger([1, 0], 0, 1)

  const QUIET := FS.Idle
  const POST := FS.Add(1, false)

  /** Before the worker takes the task, while it holds it, and after it has put it back. */
  ghost function Early(g: Shared, sem: FS.State, w: PC, c: PC): State { Pair(g, sem, w, c, false, [], NOTHING) }

  ghost function Later(g: Shared, sem: FS.State, w: PC, c: PC): State { Pair(g, sem, w, c, false, [0], NOTHING) }

  ghost function Back(g: Shared, sem: FS.State, w: PC, c: PC): State { Pair(g, sem, w, c, false, [0], KEPT) }

  function Flags(closed: bool, shtdwn: bool, q: PQ.State): Shared { Shared(closed, shtdwn, false, Free, q) }

  ghost function Started(): State {
    Early(Flags(false, false, FRESH), Sem(0, true, 0, false, QUIET, QUIET), Check, Out)
  }

  ghost function Submitted(): State {
    Early(Flags(false, false, QUEUED), Sem(1, true, 1, false, QUIET, QUIET), Check, Out)
  }

  ghost function Running(): State {
    Later(Flags(false, false, DRAINED), Sem(1, true, 1, false, QUIET, QUIET), Work, Out)
  }

  ghost function Joining(): State { Later(Flags(true, true, CLOSED), Sem(2, false, 2, true, QUIET, QUIET), Work, Join) }

  ghost function Left(): State {
    Pair(Flags(true, true, CLOSED), Sem(3, false, 3, true, QUIET, QUIET), Exit, Done, true, [0], KEPT)
  }

  /** Thread 1 submits the task. */
  lemma Submitting(tr: seq<State>) returns (tr': seq<State>)
    requires Reaches(Init, Next, tr, Started())
    ensures Reaches(Init, Next, tr', Submitted())
  {
    var g0, m0 := Flags(false, false, FRESH), Sem(0, true, 0, false, QUIET, QUIET);
    var g1, m1 := Flags(false, false, QUEUED).(owner := By(1)), Sem(0, true, 0, false, QUIET, POST);
    var m2 := Sem(1, true, 1, false, QUIET, QUIET);
    ClientMoves(g0, m0, Check, Out, false, [], NOTHING, g0, m0, Submit(TASK));
    tr' := Extend(Init, Next, tr, Started(), Early(g0, m0, Check, Submit(TASK)));
    Offers();
    tr' := Extend(Init, Next, tr', Early(g0, m0, Check, Submit(TASK)), Early(g1, m1, Check, Deliver));
    Posts(1, m1, m2);
    SemMoves(g1, m1, Check, Deliver, false, [], NOTHING, 1, m2);
    tr' := Extend(Init, Next, tr', Early(g1, m1, Check, Deliver), Early(g1, m2, Check, Deliver));
    ClientReturns(g1, m2, Check, Deliver, false, [], NOTHING, Flags(false, false, QUEUED), Out);
    tr' := Extend(Init, Next, tr', Early(g1, m2, Check, Deliver), Submitted());
  }

  lemma Offers()
    ensures Next(Early(Flags(false, false, FRESH), Sem(0, true, 0, false, QUIET, QUIET), Check, Submit(TASK)),
                 Early(Flags(false, false, QUEUED).(owner := By(1)), Sem(0, true, 0, false, QUIET, POST),
                       Check, Deliver))
  {
    var g0, m0 := Flags(false, false, FRESH), Sem(0, true, 0, false, QUIET, QUIET);
    var g1, m1 := Flags(false, false, QUEUED).(owner := By(1)), Sem(0, true, 0, false, QUIET, POST);
    assert PQ.PutStep(FRESH, TASK, QUEUED, PQ.Accepted) && PutLeaves(g0, TASK, PQ.Accepted, 1, g1, Deliver, POST);
    assert FS.Step(m0, 1, m1);
    ClientMoves(g0, m0, Check, Submit(TASK), false, [], NOTHING, g1, m1, Deliver);
  }

  /** The fetch_add of a post. */
  lemma Posts(t: Tid, m: FS.State, m': FS.State)
    requires t < 2 == |m.pc| && m.pc[t] == POST && m.g.count >= 0
    requires m' == m.(g := m.g.(count := m.g.count + 1), h := m.h.(posted := m.h.posted + 1), pc := m.pc[t := FS.Idle])
    ensures FS.Step(m, t, m')
  {
  }

  /** The worker takes the task. */
  lemma Taking(tr: seq<State>) returns (tr': seq<State>)
    requires Reaches(Init, Next, tr, Submitted())
    ensures Reaches(Init, Next, tr', Running())
  {
    var g, m := Flags(false, false, QUEUED), Sem(1, true, 1, false, QUIET, QUIET);
    WorkerMoves(g, m, Check, Out, false, [], NOTHING, g, m, Now, false, [], NOTHING);
    tr' := Extend(Init, Next, tr, Submitted(), Early(g, m, Now, Out));
    WorkerMoves(g, m, Now, Out, false, [], NOTHING, g, m, Own, false, [], NOTHING);
    tr' := Extend(Init, Next, tr', Early(g, m, Now, Out), Early(g, m, Own, Out));
    WorkerMoves(g, m, Own, Out, false, [], NOTHING, g, m, Global, false, [], NOTHING);
    tr' := Extend(Init, Next, tr', Early(g, m, Own, Out), Early(g, m, Global, Out));
    Takes();
    tr' := Extend(Init, Next, tr', Early(g, m, Global, Out), Running());
  }

  lemma Takes()
    ensures Next(Early(Flags(false, false, QUEUED), Sem(1, true, 1, false, QUIET, QUIET), Global, Out), Running())
  {
    var m := Sem(1, true, 1, false, QUIET, QUIET);
    assert QUEUED.items == multiset{TASK};
    assert PQ.TakeStep(QUEUED, TASK, DRAINED);
    WorkerMoves(Flags(false, false, QUEUED), m, Global, Out, false, [], NOTHING,
                Flags(false, false, DRAINED), m, Work, false, [0], NOTHING);
  }

  /** Thread 1 inside the deactivate of the semaphore, which is in the state m. */
  ghost function Closing(m: FS.State): State {
    Later(Flags(true, false, CLOSED), m, Work, CloseSem(false))
  }

  /** Thread 1 begins to shut the pool down. */
  lemma Stopping(tr: seq<State>) returns (tr': seq<State>)
    requires Reaches(Init, Next, tr, Running())
    ensures Reaches(Init, Next, tr', Closing(Sem(1, true, 1, false, QUIET, FS.Close)))
  {
    var g := Flags(true, false, DRAINED);
    var m0, m1 := Sem(1, true, 1, false, QUIET, QUIET), Sem(1, true, 1, false, QUIET, FS.Close);
    ClientMoves(Flags(false, false, DRAINED), m0, Work, Out, false, [0], NOTHING, g, m0, CloseQueue(false));
    tr' := Extend(Init, Next, tr, Running(), Later(g, m0, Work, CloseQueue(false)));
    ClientMoves(g, m0, Work, CloseQueue(false), false, [0], NOTHING, Flags(true, false, CLOSED), m1, CloseSem(false));
    tr' := Extend(Init, Next, tr', Later(g, m0, Work, CloseQueue(false)), Closing(m1));
  }

  /** It deactivates the semaphore. */
  lemma Deactivating(tr: seq<State>) returns (tr': seq<State>)
    requires Reaches(Init, Next, tr, Closing(Sem(1, true, 1, false, QUIET, FS.Close)))
    ensures Reaches(Init, Next, tr', Closing(Sem(2, false, 2, true, QUIET, QUIET)))
  {
    var m1, m2 := Sem(1, true, 1, false, QUIET, FS.Close), Sem(1, false, 1, false, QUIET, FS.Measure);
    var m3, m4 := Sem(1, false, 1, false, QUIET, FS.Add(1, true)), Sem(2, false, 2, true, QUIET, QUIET);
    Closes(m1, m2, m3, m4);
    tr' := Extend(Init, Next, tr, Closing(m1), Closing(m2));
    tr' := Extend(Init, Next, tr', Closing(m2), Closing(m3));
    tr' := Extend(Init, Next, tr', Closing(m3), Closing(m4));
  }

  /** It raises the flag and waits for the worker. */
  lemma Flagging(tr: seq<State>) returns (tr': seq<State>)
    requires Reaches(Init, Next, tr, Closing(Sem(2, false, 2, true, QUIET, QUIET)))
    ensures Reaches(Init, Next, tr', Joining())
  {
    var g, m := Flags(true, false, CLOSED), Sem(2, false, 2, true, QUIET, QUIET);
    ClientReturns(g, m, Work, CloseSem(false), false, [0], NOTHING, g, Flag(false));
    tr' := Extend(Init, Next, tr, Closing(m), Later(g, m, Work, Flag(false)));
    ClientMoves(g, m, Work, Flag(false), false, [0], NOTHING, Flags(true, true, CLOSED), m, Join);
    tr' := Extend(Init, Next, tr', Later(g, m, Work, Flag(false)), Joining());
  }

  /** fast_semaphore::deactivate. */
  lemma Closes(m1: FS.State, m2: FS.State, m3: FS.State, m4: FS.State)
    requires m1 == Sem(1, true, 1, false, QUIET, FS.Close) && m2 == Sem(1, false, 1, false, QUIET, FS.Measure)
    requires m3 == Sem(1, false, 1, false, QUIET, FS.Add(1, true)) && m4 == Sem(2, false, 2, true, QUIET, QUIET)
    ensures Next(Closing(m1), Closing(m2)) && Next(Closing(m2), Closing(m3)) && Next(Closing(m3), Closing(m4))
  {
    var g := Flags(true, false, CLOSED);
    assert FS.Step(m1, 1, m2) && FS.Step(m2, 1, m3) && FS.Step(m3, 1, m4);
    SemMoves(g, m1, Work, CloseSem(false), false, [0], NOTHING, 1, m2);
    SemMoves(g, m2, Work, CloseSem(false), false, [0], NOTHING, 1, m3);
    SemMoves(g, m3, Work, CloseSem(false), false, [0], NOTHING, 1, m4);
  }

  /** The worker, back at the head of its loop with the task in its own deque. */
  ghost function Kept(w: PC, latched: bool): State {
    Pair(Flags(true, true, CLOSED), Sem(3, false, 3, true, QUIET, QUIET), w, Join, latched, [0], KEPT)
  }

  /** The worker puts the task back. */
  lemma Keeping(tr: seq<State>) returns (tr': seq<State>)
    requires Reaches(Init, Next, tr, Joining())
    ensures Reaches(Init, Next, tr', Kept(Check, false))
  {
    var g := Flags(true, true, CLOSED);
    var m1, m2 := Sem(2, false, 2, true, POST, QUIET), Sem(3, false, 3, true, QUIET, QUIET);
    PutsBack();
    tr' := Extend(Init, Next, tr, Joining(), Back(g, m1, Requeue, Join));
    Posts(0, m1, m2);
    SemMoves(g, m1, Requeue, Join, false, [0], KEPT, 0, m2);
    tr' := Extend(Init, Next, tr', Back(g, m1, Requeue, Join), Kept(Requeue, false));
    WorkerReturns(g, m2, Join, false, [0], KEPT);
    tr' := Extend(Init, Next, tr', Kept(Requeue, false), Kept(Check, false));
  }

  /** It sees the flag and the empty queue, and leaves; so shutdown returns. */
  lemma Leaving(tr: seq<State>) returns (tr': seq<State>)
    requires Reaches(Init, Next, tr, Kept(Check, false))
    ensures Reaches(Init, Next, tr', Left())
  {
    Latches();
    Exits();
    Returns();
    tr' := Extend(Init, Next, tr, Kept(Check, false), Kept(Empty, true));
    tr' := Extend(Init, Next, tr', Kept(Empty, true), Kept(Exit, true));
    tr' := Extend(Init, Next, tr', Kept(Exit, true), Left());
  }

  lemma Latches()
    ensures Next(Kept(Check, false), Kept(Empty, true))
  {
    var g, m := Flags(true, true, CLOSED), Sem(3, false, 3, true, QUIET, QUIET);
    WorkerMoves(g, m, Check, Join, false, [0], KEPT, g, m, Empty, true, [0], KEPT);
  }

  lemma Returns()
    ensures Next(Kept(Exit, true), Left())
  {
    var g, m := Flags(true, true, CLOSED), Sem(3, false, 3, true, QUIET, QUIET);
    ClientMoves(g, m, Exit, Join, true, [0], KEPT, g, m, Done);
  }

  lemma Exits()
    ensures Next(Kept(Empty, true), Kept(Exit, true))
  {
    var g, m := Flags(true, true, CLOSED), Sem(3, false, 3, true, QUIET, QUIET);
    assert CLOSED.items == multiset{};
    WorkerMoves(g, m, Empty, Join, true, [0], KEPT, g, m, Exit, true, [0], KEPT);
  }

  lemma PutsBack()
    ensures Next(Joining(), Back(Flags(true, true, CLOSED), Sem(2, false, 2, true, POST, QUIET), Requeue, Join))
  {
    var g, m0 := Flags(true, true, CLOSED), Sem(2, false, 2, true, QUIET, QUIET);
    var m1 := Sem(2, false, 2, true, POST, QUIET);
    assert FS.Step(m0, 0, m1);
    assert KEPT.own == NOTHING.own[0 := 1];
    WorkerMoves(g, m0, Work, Join, false, [0], NOTHING, g, m1, Requeue, false, [0], KEPT);
  }

  /** shutdown has returned and every worker has left its loop, and yet a task that the pool
      accepted is not complete. */
  lemma ShutdownLeavesTask() returns (tr: seq<State>)
    ensures IsRun(Init, Next, tr)
    ensures var s := tr[|tr| - 1];
            && s.pc == [Exit, Done] && !s.g.shtdwnNow
            && |s.g.q.accepted| == 1 && s.led.completed == 0 && s.led.own == [1, 0]
  {
    tr := [Started()];
    tr := Submitting(tr);
    tr := Taking(tr);
    tr := Stopping(tr);
    tr := Deactivating(tr);
    tr := Flagging(tr);
    tr := Keeping(tr);
    tr := Leaving(tr);
  }
}
