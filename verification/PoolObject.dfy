/** The thread pool (pool_base.hpp, worker.hpp) as an object over the priority queue and the
    fast semaphore, with its workers and the threads that submit tasks and shut it down. */
module PoolObject {
  import opened Locks
  import opened Pool
  import opened Runs
  import opened SpinMutex
  import FS = FastSemaphore
  import PQ = PrioQueue
  import Queues = QueueObject
  import Semaphores = SemaphoreObject

  /** One turn of a schedule: thread t moves. `victim` is the worker whose deque a thief's scan
      reaches, `complete` tells whether a task is done after a run; `submits` whether a thread
      outside submits `item` or shuts the pool down, `now` which shutdown it calls;
      `wasNotified` whether a sleeping submitter wakes for a notification. */
  datatype Turn = Turn(t: Tid, victim: Tid, complete: bool, submits: bool, item: PQ.Item, now: bool, wasNotified: bool)

  /** Thread turn.t cannot move: it waits for mtx_, for a notification, for a token or for the
      workers, or it is at its end, or the pool is closed to it. */
  ghost predicate Stays(s: State, turn: Turn)
    requires turn.t < |s.pc| == |s.sem.pc|
  {
    var g, p := s.g, s.pc[turn.t];
    || (InSem(p) && s.sem.pc[turn.t].Block? && s.sem.g.kernel == 0)
    || (g.owner.By? && (p.Empty? || p.Global? || p.Submit? || p.Sleep? || p.CloseQueue?))
    || (p.Sleep? && if turn.wasNotified then g.q.notified == 0 else g.q.asleep == 0)
    || (p.Out? && g.closed) || (p.Join? && !AllExited(s.pc)) || p.Done? || p.Exit?
  }

  predicate Stealable(own: seq<nat>, t: Tid, victim: Tid) { victim < |own| && victim != t && own[victim] > 0 }

  function Opening(turn: Turn): PC { if turn.submits then Submit(turn.item) else CloseQueue(turn.now) }

  /** The thread at p moves as the turn says where there is a choice. */
  predicate Heeds(own: seq<nat>, p: PC, turn: Turn, p': PC) {
    && (p.Out? ==> p' == Opening(turn))
    && (p.Work? ==> p' == if turn.complete then Check else Requeue)
    && (p.Steal? ==> p' == if Stealable(own, turn.t, turn.victim) then Work else Wait)
  }

  /** Thread turn.t has its turn: it makes its next step, or cannot move. */
  ghost predicate Turned(s: State, turn: Turn, s': State) {
    && turn.t < |s.pc| == |s'.pc| && |s.pc| == |s.sem.pc| == |s.latch| == |s.led.own|
    && if Stays(s, turn) then s' == s
       else Step(s, turn.t, s') && Heeds(s.led.own, s.pc[turn.t], turn, s'.pc[turn.t])
  }

  lemma Starts(s: State, workers: nat, n: nat)
    requires FS.Init(s.sem) && PQ.Init(s.g.q) && s.g == Shared(false, false, false, Free, s.g.q) && s.taker == []
    requires |s.sem.pc| == n && s.pc == seq(n, t => if t < workers then Check else Out)
    requires s.latch == seq(n, t => false) && s.led == Ledger(seq(n, t => 0), 0, 0)
    ensures Init(s)
  {
  }

  class ThreadPool {
    var closed: bool
    var shtdwn: bool
    var shtdwnNow: bool
    const queue: Queues.BoundedPrioQueue
    const mtx: Mutex
    const fsem: Semaphores.Semaphore
    const latch: array<bool>
    /** How many tasks lie in each worker's wsq_. */
    const own: array<nat>
    const pc: array<PC>
    ghost var owner: Owner
    ghost var taker: seq<Tid>
    ghost var completed: nat
    ghost var requeued: nat

    static method Places(workers: nat, n: nat) returns (pc: array<PC>)
      requires workers <= n
      ensures fresh(pc) && pc.Length == n && pc[..] == seq(n, t => if t < workers then Check else Out)
    {
      pc := new PC[n](t => if t < workers then Check else Out);
    }

    static method Arrays(n: nat) returns (latch: array<bool>, own: array<nat>)
      ensures fresh(latch) && latch.Length == n && latch[..] == seq(n, t => false)
      ensures fresh(own) && own.Length == n && own[..] == seq(n, t => 0)
    {
      latch, own := new bool[n](_ => false), new nat[n](_ => 0);
    }

    /** A pool of the first `workers` of n threads. */
    constructor (high: nat, low: nat, spins: nat, workers: nat, n: nat)
      requires low <= high && workers <= n
      ensures fresh(Repr()) && Valid() && Init(Current()) && pc.Length == n
    {
      closed, shtdwn, shtdwnNow := false, false, false;
      queue := new Queues.BoundedPrioQueue(high, low);
      mtx := new Mutex();
      fsem := new Semaphores.Semaphore(0, spins, n);
      var flags, counts := Arrays(n);
      var places := Places(workers, n);
      latch, own, pc := flags, counts, places;
      owner, taker, completed, requeued := Free, [], 0, 0;
      new;
      Starts(Current(), workers, n);
    }

    ghost function Repr(): set<object> { {this, queue, mtx, fsem, fsem.sem, fsem.pc, latch, own, pc} }

    ghost predicate Valid()
      reads this, mtx
    {
      && pc.Length == fsem.pc.Length == latch.Length == own.Length && (mtx.locked <==> owner.By?)
    }

    ghost function Vars(): Shared
      reads this, queue
    {
      Shared(closed, shtdwn, shtdwnNow, owner, queue.Current())
    }

    ghost function Accounts(): Ledger
      reads this, own
    {
      Ledger(own[..], completed, requeued)
    }

    ghost function Current(): State
      reads Repr()
    {
      State(Vars(), fsem.Current(), pc[..], latch[..], taker, Accounts())
    }

    /** The exit tests of a worker. */
    method Look(t: Tid, p: PC) returns (p': PC)
      requires Valid() && t < latch.Length && (p.Check? || p.Empty? || p.Now?) && (p.Empty? ==> !mtx.locked)
      modifies latch
      ensures latch[..] == old(latch[..])[t := old(latch[t]) || (p.Check? && shtdwn)]
      ensures WorkerStep(Vars(), p, old(latch[t]), t, Vars(), p', FS.Idle)
    {
      match p {
        case Check =>
          if !latch[t] { latch[t] := shtdwn; }
          p' := if latch[t] then Empty else Now;
        case Empty =>
          p' := if queue.queue == multiset{} then Exit else Now;
        case Now =>
          p' := if shtdwnNow then Exit else Own;
      }
    }

    /** wsq_.try_take of a worker's own deque. */
    method TakeOwn(t: Tid) returns (p': PC)
      requires Valid() && t < own.Length
      modifies own
      ensures Books(old(Accounts()), Own, t, Accounts(), p')
      ensures WorkerStep(Vars(), Own, latch[t], t, Vars(), p', FS.Idle)
    {
      if own[t] > 0 {
        own[t] := own[t] - 1;
        p' := Work;
      } else {
        p' := Global;
      }
    }

    /** queue_.try_take. */
    method TakeGlobal(t: Tid) returns (p': PC)
      requires Valid() && t < latch.Length && !mtx.locked
      modifies queue, this`taker
      ensures WorkerStep(old(Vars()), Global, latch[t], t, Vars(), p', FS.Idle)
      ensures taker == (if queue.taken == old(queue.taken) then old(taker) else old(taker) + [t]) && !InSem(p')
    {
      var r := queue.TryTake();
      if r.Some? {
        PQ.WakeKeeps(PQ.Pop(old(queue.Current()), r.value));
        taker := taker + [t];
      }
      p' := if r.Some? then Work else Steal;
    }

    /** The semaphore moves on in thread t: it begins a call, or it does not. */
    twostate predicate SemCalls(t: Tid)
      requires t < fsem.pc.Length
      reads fsem, fsem.sem, fsem.pc
    {
      if fsem.pc[t] == FS.Idle then fsem.Current() == old(fsem.Current())
      else FS.Step(old(fsem.Current()), t, fsem.Current())
    }

    /** Stealing, or sleeping on the semaphore when the scan finds nothing. */
    method StealWork(t: Tid, victim: Tid) returns (p': PC)
      requires Valid() && t < pc.Length && fsem.pc[t] == FS.Idle
      modifies own, fsem`semCount, fsem`semActive, fsem`h, fsem.sem, fsem.pc
      ensures SemCalls(t) && (fsem.pc[t] != FS.Idle <==> InSem(p'))
      ensures WorkerStep(Vars(), Steal, latch[t], t, Vars(), p', fsem.pc[t])
      ensures Books(old(Accounts()), Steal, t, Accounts(), p')
      ensures p' == if Stealable(old(own[..]), t, victim) then Work else Wait
    {
      if victim < own.Length && victim != t && own[victim] > 0 {
        ghost var led := Accounts();
        own[victim] := own[victim] - 1;
        assert Accounts() == led.(own := led.own[victim := led.own[victim] - 1]);
        p' := Work;
      } else {
        fsem.Step(t, FS.SpinTest(0));
        p' := Wait;
      }
    }

    /** Running a task; one that is not complete goes into the worker's own deque. */
    method RunTask(t: Tid, complete: bool) returns (p': PC)
      requires Valid() && t < pc.Length && fsem.pc[t] == FS.Idle
      modifies own, this`completed, this`requeued, fsem`semCount, fsem`semActive, fsem`h, fsem.sem, fsem.pc
      ensures SemCalls(t) && (fsem.pc[t] != FS.Idle <==> InSem(p'))
      ensures WorkerStep(Vars(), Work, latch[t], t, Vars(), p', fsem.pc[t])
      ensures Books(old(Accounts()), Work, t, Accounts(), p') && p' == if complete then Check else Requeue
    {
      if complete {
        completed := completed + 1;
        p' := Check;
      } else {
        own[t] := own[t] + 1;
        requeued := requeued + 1;
        fsem.Step(t, FS.Add(1, false));
        p' := Requeue;
      }
    }

    /** The submitter leaves the critical section of queue_.put that ended with `end`; an
        accepted item is posted for while mtx_ is still owned. */
    method Leave(t: Tid, x: PQ.Item, end: PQ.PutEnd, ghost g: Shared) returns (p': PC)
      requires Valid() && t < pc.Length && fsem.pc[t] == FS.Idle && owner == Free && Vars() == g.(q := queue.Current())
      modifies mtx, this`owner, fsem`semCount, fsem`semActive, fsem`h, fsem.sem, fsem.pc
      ensures Valid() && SemCalls(t) && (fsem.pc[t] != FS.Idle <==> InSem(p'))
      ensures PutLeaves(g, x, end, t, Vars(), p', fsem.pc[t])
    {
      match end {
        case Accepted =>
          var _ := mtx.TryLock();
          owner := By(t);
          fsem.Step(t, FS.Add(1, false));
          p' := Deliver;
        case Asleep =>
          p' := Sleep(x);
        case Rejected =>
          p' := Out;
      }
    }

    /** queue_.put up to its first sleep. */
    method Offer(t: Tid, p: PC) returns (p': PC)
      requires Valid() && t < pc.Length && p.Submit? && fsem.pc[t] == FS.Idle && !mtx.locked
      modifies queue, mtx, this`owner, fsem`semCount, fsem`semActive, fsem`h, fsem.sem, fsem.pc
      ensures Valid() && SemCalls(t) && (fsem.pc[t] != FS.Idle <==> InSem(p')) && queue.taken == old(queue.taken)
      ensures OtherStep(old(Vars()), p, AllExited(pc[..]), t, Vars(), p', fsem.pc[t])
    {
      ghost var g := Vars();
      var end := queue.Put(p.x);
      p' := Leave(t, p.x, end, g);
      assert PQ.PutStep(g.q, p.x, Vars().q, end) && PutLeaves(g, p.x, end, t, Vars(), p', fsem.pc[t]);
    }

    /** A submitter wakes up inside queue_.put, notified or for no reason. */
    method WakeUp(t: Tid, p: PC, wasNotified: bool) returns (p': PC)
      requires Valid() && t < pc.Length && p.Sleep? && fsem.pc[t] == FS.Idle
      requires !mtx.locked && if wasNotified then queue.notified > 0 else queue.asleep > 0
      modifies queue, mtx, this`owner, fsem`semCount, fsem`semActive, fsem`h, fsem.sem, fsem.pc
      ensures Valid() && SemCalls(t) && (fsem.pc[t] != FS.Idle <==> InSem(p')) && queue.taken == old(queue.taken)
      ensures OtherStep(old(Vars()), p, AllExited(pc[..]), t, Vars(), p', fsem.pc[t])
    {
      ghost var g := Vars();
      var end := queue.Resume(p.x, wasNotified, false);
      ghost var q := queue.Current();
      assert PQ.ResumeStep(g.q, p.x, wasNotified, false, q, end) && q.taken == g.q.taken;
      p' := Leave(t, p.x, end, g);
      assert Vars().q == q && PutLeaves(g, p.x, end, t, Vars(), p', fsem.pc[t]);
    }

    /** submit up to its put, and the beginning of shutdown and shutdown_now, on a pool that is
        not closed. */
    method Enter(t: Tid, turn: Turn) returns (p': PC)
      requires !closed
      modifies this`closed
      ensures !InSem(p') && p' == Opening(turn)
      ensures OtherStep(old(Vars()), Out, AllExited(pc[..]), t, Vars(), p', FS.Idle)
    {
      if turn.submits {
        p' := Submit(turn.item);
      } else {
        closed := true;
        p' := CloseQueue(turn.now);
      }
    }

    /** Deactivating the queue and the semaphore. */
    method CloseBoth(t: Tid, p: PC) returns (p': PC)
      requires Valid() && t < pc.Length && p.CloseQueue? && fsem.pc[t] == FS.Idle && !mtx.locked
      modifies queue, fsem`semCount, fsem`semActive, fsem`h, fsem.sem, fsem.pc
      ensures SemCalls(t) && (fsem.pc[t] != FS.Idle <==> InSem(p')) && queue.taken == old(queue.taken)
      ensures OtherStep(old(Vars()), p, AllExited(pc[..]), t, Vars(), p', fsem.pc[t])
    {
      queue.Deactivate();
      fsem.Step(t, FS.Close);
      p' := CloseSem(p.now);
    }

    /** Raising the flag, and the end of the join. */
    method Finish(t: Tid, p: PC) returns (p': PC)
      requires p.Flag? || (p.Join? && AllExited(pc[..]))
      modifies this`shtdwn, this`shtdwnNow
      ensures !InSem(p')
      ensures OtherStep(old(Vars()), p, AllExited(pc[..]), t, Vars(), p', FS.Idle)
    {
      match p {
        case Flag(now) =>
          if now { shtdwnNow := true; } else { shtdwn := true; }
          p' := Join;
        case Join =>
          p' := Done;
      }
    }

    /** Have all workers left their loops? */
    method AllLeft() returns (left: bool)
      ensures left == AllExited(pc[..])
    {
      left := true;
      for t := 0 to pc.Length
        invariant left == AllExited(pc[..t])
      {
        assert pc[..t + 1] == pc[..t] + [pc[t]];
        left := left && (Worker(pc[t]) ==> pc[t] == Exit);
      }
      assert pc[..pc.Length] == pc[..];
    }

    /** A call of the semaphore returns. */
    method Return(p: PC) returns (p': PC)
      requires Valid() && InSem(p)
      modifies mtx, this`owner
      ensures Valid() && !InSem(p') && ReturnStep(old(Vars()), p, Vars(), p')
    {
      match p {
        case CloseSem(now) =>
          p' := Flag(now);
        case Deliver =>
          mtx.Unlock();
          owner := Free;
          p' := Out;
        case _ =>
          p' := Check;
      }
    }

    /** Thread t, outside the semaphore in state s, goes to p' with what it has done. */
    method Go(t: Tid, p': PC, ghost s: State)
      requires Valid() && t < pc.Length && |s.pc| == |s.sem.pc| == |s.latch| == |s.led.own| == pc.Length
      requires pc[..] == s.pc && s.sem.pc[t] == FS.Idle && Books(s.led, s.pc[t], t, Accounts(), p')
      requires latch[..] == s.latch[t := s.latch[t] || (s.pc[t].Check? && s.g.shtdwn)]
      requires taker == if queue.taken == s.g.q.taken then s.taker else s.taker + [t]
      requires if fsem.pc[t] == FS.Idle then fsem.Current() == s.sem else FS.Step(s.sem, t, fsem.Current())
      requires fsem.pc[t] != FS.Idle <==> InSem(p')
      requires if Worker(s.pc[t]) then WorkerStep(s.g, s.pc[t], s.latch[t], t, Vars(), p', fsem.pc[t])
               else OtherStep(s.g, s.pc[t], AllExited(s.pc), t, Vars(), p', fsem.pc[t])
      modifies pc
      ensures Step(s, t, Current()) && pc[t] == p'
    {
      pc[t] := p';
      assert pc[..] == s.pc[t := p'];
      Assemble(s, t, Current());
    }

    /** A worker tests whether it may leave. */
    method LookTurn(t: Tid)
      requires Valid() && t < pc.Length && (pc[t].Check? || pc[t].Empty? || pc[t].Now?) && fsem.pc[t] == FS.Idle
      requires pc[t].Empty? ==> !mtx.locked
      modifies latch, pc
      ensures Step(old(Current()), t, Current())
    {
      ghost var s := Current();
      var p' := Look(t, pc[t]);
      Go(t, p', s);
    }

    /** A worker tries its own deque. */
    method OwnTurn(t: Tid)
      requires Valid() && t < pc.Length && pc[t].Own? && fsem.pc[t] == FS.Idle
      modifies own, pc
      ensures Step(old(Current()), t, Current())
    {
      ghost var s := Current();
      assert s.latch == s.latch[t := s.latch[t]];
      var p' := TakeOwn(t);
      Go(t, p', s);
    }

    /** A worker tries the global queue. */
    method TakeTurn(t: Tid)
      requires Valid() && t < pc.Length && pc[t].Global? && fsem.pc[t] == FS.Idle && !mtx.locked
      modifies queue, this`taker, pc
      ensures Step(old(Current()), t, Current())
    {
      ghost var s := Current();
      assert s.latch == s.latch[t := s.latch[t]];
      var p' := TakeGlobal(t);
      Go(t, p', s);
    }

    /** A worker steals. */
    method StealTurn(turn: Turn)
      requires Valid() && turn.t < pc.Length && pc[turn.t].Steal? && fsem.pc[turn.t] == FS.Idle
      modifies own, fsem`semCount, fsem`semActive, fsem`h, fsem.sem, fsem.pc, pc
      ensures Step(old(Current()), turn.t, Current())
      ensures Heeds(old(own[..]), old(pc[turn.t]), turn, pc[turn.t])
    {
      ghost var s := Current();
      assert s.latch == s.latch[turn.t := s.latch[turn.t]];
      var p' := StealWork(turn.t, turn.victim);
      Go(turn.t, p', s);
    }

    /** A worker runs its task. */
    method WorkTurn(t: Tid, complete: bool)
      requires Valid() && t < pc.Length && pc[t].Work? && fsem.pc[t] == FS.Idle
      modifies own, this`completed, this`requeued, fsem`semCount, fsem`semActive, fsem`h, fsem.sem, fsem.pc, pc
      ensures Step(old(Current()), t, Current()) && pc[t] == if complete then Check else Requeue
    {
      ghost var s := Current();
      assert s.latch == s.latch[t := s.latch[t]];
      var p' := RunTask(t, complete);
      Go(t, p', s);
    }

    /** A submitter in queue_.put. */
    method SubmitTurn(t: Tid, wasNotified: bool)
      requires Valid() && t < pc.Length && (pc[t].Submit? || pc[t].Sleep?) && fsem.pc[t] == FS.Idle && !mtx.locked
      requires pc[t].Sleep? ==> if wasNotified then queue.notified > 0 else queue.asleep > 0
      modifies queue, mtx, this`owner, fsem`semCount, fsem`semActive, fsem`h, fsem.sem, fsem.pc, pc
      ensures Valid() && Step(old(Current()), t, Current())
    {
      ghost var s := Current();
      assert s.latch == s.latch[t := s.latch[t]];
      var p := pc[t];
      var p';
      if p.Submit? {
        p' := Offer(t, p);
      } else {
        p' := WakeUp(t, p, wasNotified);
      }
      Go(t, p', s);
    }

    /** A thread that begins to submit or to shut down. */
    method EnterTurn(turn: Turn)
      requires Valid() && turn.t < pc.Length && pc[turn.t].Out? && fsem.pc[turn.t] == FS.Idle && !closed
      modifies this`closed, pc
      ensures Step(old(Current()), turn.t, Current()) && pc[turn.t] == Opening(turn)
    {
      ghost var s := Current();
      assert s.latch == s.latch[turn.t := s.latch[turn.t]];
      var p' := Enter(turn.t, turn);
      Go(turn.t, p', s);
    }

    /** A thread that shuts the queue and the semaphore. */
    method CloseTurn(t: Tid)
      requires Valid() && t < pc.Length && pc[t].CloseQueue? && fsem.pc[t] == FS.Idle && !mtx.locked
      modifies queue, fsem`semCount, fsem`semActive, fsem`h, fsem.sem, fsem.pc, pc
      ensures Step(old(Current()), t, Current())
    {
      ghost var s := Current();
      assert s.latch == s.latch[t := s.latch[t]];
      var p' := CloseBoth(t, pc[t]);
      Go(t, p', s);
    }

    /** A thread that finishes a shutdown. */
    method FinishTurn(t: Tid)
      requires Valid() && t < pc.Length && fsem.pc[t] == FS.Idle
      requires pc[t].Flag? || (pc[t].Join? && AllExited(pc[..]))
      modifies this`shtdwn, this`shtdwnNow, pc
      ensures Step(old(Current()), t, Current())
    {
      ghost var s := Current();
      assert s.latch == s.latch[t := s.latch[t]];
      var p' := Finish(t, pc[t]);
      Go(t, p', s);
    }

    /** A thread whose call of the semaphore returns. */
    method ReturnTurn(t: Tid)
      requires Valid() && t < pc.Length && InSem(pc[t]) && fsem.pc[t] == FS.Idle
      modifies mtx, this`owner, pc
      ensures Valid() && Step(old(Current()), t, Current())
    {
      ghost var s := Current();
      var p' := Return(pc[t]);
      pc[t] := p';
      assert pc[..] == s.pc[t := p'] && s.latch == s.latch[t := s.latch[t]];
      AssembleReturn(s, t, Current());
    }

    /** A thread inside a call of the semaphore that is not blocked there. */
    method SemTurn(t: Tid)
      requires Valid() && t < pc.Length && InSem(pc[t]) && fsem.pc[t] != FS.Idle
      requires fsem.pc[t].Block? ==> fsem.sem.tokens > 0
      modifies fsem`semCount, fsem`semActive, fsem`h, fsem.sem, fsem.pc
      ensures Step(old(Current()), t, Current())
    {
      ghost var s := Current();
      fsem.Step(t, FS.Idle);
      AssembleSem(s, t, Current());
    }

    /** Can thread turn.t not move? */
    method MustStay(turn: Turn) returns (stay: bool)
      requires Valid() && turn.t < pc.Length
      ensures stay == Stays(Current(), turn)
    {
      var p := pc[turn.t];
      var left := AllLeft();
      stay :=
        || (InSem(p) && fsem.pc[turn.t].Block? && fsem.sem.tokens == 0)
        || (mtx.locked && (p.Empty? || p.Global? || p.Submit? || p.Sleep? || p.CloseQueue?))
        || (p.Sleep? && if turn.wasNotified then queue.notified == 0 else queue.asleep == 0)
        || (p.Out? && closed) || (p.Join? && !left) || p.Done? || p.Exit?;
    }

    /** A worker that runs a task. */
    method ToilMove(turn: Turn)
      requires Valid() && turn.t < pc.Length && fsem.pc[turn.t] == FS.Idle && pc[turn.t].Work?
      modifies Repr()
      ensures Valid() && Step(old(Current()), turn.t, Current())
      ensures Heeds(old(own[..]), old(pc[turn.t]), turn, pc[turn.t])
    {
      WorkTurn(turn.t, turn.complete);
    }

    /** A worker in the rest of the loop. */
    method LoopMove(turn: Turn)
      requires Valid() && turn.t < pc.Length && fsem.pc[turn.t] == FS.Idle
      requires pc[turn.t].Check? || pc[turn.t].Empty? || pc[turn.t].Now? || pc[turn.t].Own? || pc[turn.t].Global?
      requires pc[turn.t].Empty? || pc[turn.t].Global? ==> !mtx.locked
      modifies Repr()
      ensures Valid() && Step(old(Current()), turn.t, Current())
      ensures Heeds(old(own[..]), old(pc[turn.t]), turn, pc[turn.t])
    {
      if pc[turn.t].Own? {
        OwnTurn(turn.t);
      } else if pc[turn.t].Global? {
        TakeTurn(turn.t);
      } else {
        LookTurn(turn.t);
      }
    }

    /** A worker that can move. */
    method WorkerMove(turn: Turn)
      requires Valid() && turn.t < pc.Length && fsem.pc[turn.t] == FS.Idle && !Stays(Current(), turn)
      requires Worker(pc[turn.t]) && !InSem(pc[turn.t])
      modifies Repr()
      ensures Valid() && Step(old(Current()), turn.t, Current())
      ensures Heeds(old(own[..]), old(pc[turn.t]), turn, pc[turn.t])
    {
      if pc[turn.t].Steal? {
        StealTurn(turn);
      } else if pc[turn.t].Work? {
        ToilMove(turn);
      } else {
        LoopMove(turn);
      }
    }

    /** Any other thread that can move. */
    method OtherMove(turn: Turn)
      requires Valid() && turn.t < pc.Length && fsem.pc[turn.t] == FS.Idle && !Stays(Current(), turn)
      requires !Worker(pc[turn.t]) && !InSem(pc[turn.t])
      modifies Repr()
      ensures Valid() && Step(old(Current()), turn.t, Current())
      ensures Heeds(old(own[..]), old(pc[turn.t]), turn, pc[turn.t])
    {
      var t, p := turn.t, pc[turn.t];
      if p.Submit? || p.Sleep? {
        SubmitTurn(t, turn.wasNotified);
      } else if p.Out? {
        EnterTurn(turn);
      } else if p.CloseQueue? {
        CloseTurn(t);
      } else {
        FinishTurn(t);
      }
    }

    /** Thread turn.t moves on by one step, or stays because it has to wait or is at its end. */
    method Move(turn: Turn)
      requires Valid() && turn.t < pc.Length && (InSem(pc[turn.t]) || fsem.pc[turn.t] == FS.Idle)
      modifies Repr()
      ensures Valid() && Turned(old(Current()), turn, Current())
    {
      var t := turn.t;
      var stay := MustStay(turn);
      if stay {
      } else if InSem(pc[t]) {
        if fsem.pc[t] == FS.Idle {
          ReturnTurn(t);
        } else {
          SemTurn(t);
        }
      } else if Worker(pc[t]) {
        WorkerMove(turn);
      } else {
        OtherMove(turn);
      }
    }

    /** The k-th turn of the schedule, on top of tr. */
    method Play(schedule: seq<Turn>, k: nat, ghost tr: seq<State>) returns (ghost tr': seq<State>)
      requires k < |schedule| && schedule[k].t < pc.Length && Valid() && Inv(Current())
      requires Follows(Turned, schedule[..k], tr) && tr[k] == Current()
      modifies Repr()
      ensures Valid() && Inv(Current())
      ensures Follows(Turned, schedule[..k + 1], tr') && tr'[0] == tr[0] && tr'[k + 1] == Current()
    {
      OutsideIdle(Current(), schedule[k].t);
      Move(schedule[k]);
      TurnKeeps(tr[k], schedule[k], Current());
      FollowOn(Turned, schedule, k, tr, Current());
      tr' := tr + [Current()];
    }

    /** Any schedule drives the object turn by turn, and through a run of the step machine. */
    method Execute(schedule: seq<Turn>) returns (ghost tr: seq<State>)
      requires Valid() && Init(Current()) && forall i :: 0 <= i < |schedule| ==> schedule[i].t < pc.Length
      modifies Repr()
      ensures Follows(Turned, schedule, tr) && tr[0] == old(Current()) && tr[|schedule|] == Current()
      ensures Run(Collapse(tr)) && forall s :: s in tr <==> s in Collapse(tr)
    {
      tr := [Current()];
      InitInv(Current());
      for k := 0 to |schedule|
        invariant Valid() && Inv(Current())
        invariant Follows(Turned, schedule[..k], tr) && tr[0] == old(Current()) && tr[k] == Current()
      {
        tr := Play(schedule, k, tr);
      }
      assert schedule[..|schedule|] == schedule;
      TurnsRun(schedule, tr);
    }
  }

  /** Only a thread inside a call of the semaphore stands anywhere in it. */
  lemma OutsideIdle(s: State, t: Tid)
    requires Inv(s) && t < |s.pc|
    ensures InSem(s.pc[t]) || s.sem.pc[t] == FS.Idle
  {
  }

  lemma TurnIsStep(s: State, turn: Turn, s': State)
    requires Turned(s, turn, s') && s' != s
    ensures Next(s, s')
  {
    assert Step(s, turn.t, s');
  }

  lemma TurnKeeps(s: State, turn: Turn, s': State)
    requires Inv(s) && Turned(s, turn, s')
    ensures Inv(s')
  {
    if s' != s {
      TurnIsStep(s, turn, s');
      NextInv(s, s');
    }
  }

  lemma TurnsRun(schedule: seq<Turn>, tr: seq<State>)
    requires Follows(Turned, schedule, tr) && Init(tr[0])
    ensures Run(Collapse(tr)) && forall s :: s in tr <==> s in Collapse(tr)
  {
    forall s, x: Turn, s' | Turned(s, x, s') && s' != s ensures Next(s, s') {
      TurnIsStep(s, x, s');
    }
    FollowsRun(Init, Next, Turned, schedule, tr);
  }
}
