/** The thread pool: worker loop (worker.hpp), submit and shutdown (pool_base.hpp), over
    the watermarked priority queue and the fast semaphore. Any number of workers and of
    other threads; a step is one access of the semaphore, one critical section of the
    queue, or one access to a flag. */
module Pool {
  import opened Counting
  import opened Locks
  import opened Runs
  import FS = FastSemaphore
  import PQ = PrioQueue

  datatype PC =
    // a worker
    | Check            // shutdown__: latch and read shtdwn_
    | Empty            // shutdown_: queue_.empty()
    | Now              // shutdown_now__: read shtdwn_now_
    | Own              // wsq_.try_take
    | Global           // queue_.try_take
    | Steal            // try_steal of the other workers' wsq_
    | Work             // run the task
    | Requeue          // wsq_.put of an incomplete task, inside fsem_.post
    | Wait             // inside fsem_.wait
    | Exit             // left the loop
    // any other thread
    | Out
    | Submit(x: PQ.Item)   // queue_.put: take mtx_
    | Sleep(x: PQ.Item)    // queue_.put: asleep on not_full_cond_
    | Deliver              // queue_.put: item pushed, inside fsem_.post, owning mtx_
    // shutdown, and shutdown_now when `now`
    | CloseQueue(now: bool)   // queue_.deactivate
    | CloseSem(now: bool)     // inside fsem_.deactivate
    | Flag(now: bool)         // store shtdwn_ or shtdwn_now_
    | Join                    // join_all
    | Done                    // has returned

  /** pool_base's flags, and the global queue with the owner of its mtx_. */
  datatype Shared = Shared(closed: bool, shtdwn: bool, shtdwnNow: bool, owner: Owner, q: PQ.State)

  /** What became of the tasks that workers took from the global queue: how many lie in each
      worker's wsq_, how many have been completed, and how often one went into a wsq_. */
  datatype Ledger = Ledger(own: seq<nat>, completed: nat, requeued: nat)

  /** latch: every worker's shtdwn_; taker: which worker took the k-th item of q.taken. */
  datatype State = State(g: Shared, sem: FS.State, pc: seq<PC>, latch: seq<bool>, taker: seq<Tid>, led: Ledger)

  predicate Worker(p: PC) {
    p.Check? || p.Empty? || p.Now? || p.Own? || p.Global? || p.Steal? || p.Work? || p.Requeue? || p.Wait? || p.Exit?
  }

  ghost predicate Init(s: State) {
    && FS.Init(s.sem) && PQ.Init(s.g.q)
    && !s.g.closed && !s.g.shtdwn && !s.g.shtdwnNow && s.g.owner == Free && s.taker == []
    && |s.pc| == |s.sem.pc| == |s.latch| == |s.led.own|
    && (forall t :: 0 <= t < |s.pc| ==> s.pc[t] == Check || s.pc[t] == Out)
    && (forall t :: 0 <= t < |s.latch| ==> !s.latch[t])
    && (forall t :: 0 <= t < |s.led.own| ==> s.led.own[t] == 0) && s.led.completed == s.led.requeued == 0
  }

  /** Threads that are inside a call of the semaphore; sp is where they stand in it. */
  predicate InSem(p: PC) { p.Wait? || p.Requeue? || p.Deliver? || p.CloseSem? }

  ghost predicate WorkerStep(g: Shared, p: PC, latched: bool, t: Tid, g': Shared, p': PC, sp': FS.PC) {
    match p
    case Check => g' == g && p' == if latched || g.shtdwn then Empty else Now
    case Empty => g.owner == Free && g' == g && p' == if g.q.items == multiset{} then Exit else Now
    case Now => g' == g && p' == if g.shtdwnNow then Exit else Own
    case Own => g' == g && (p' == Work || p' == Global)
    case Global =>
      && g.owner == Free
      && if g.q.items == multiset{} then g' == g && p' == Steal
         else (exists x :: PQ.TakeStep(g.q, x, g'.q)) && g' == g.(q := g'.q) && p' == Work
    case Steal => g' == g && (p' == Work || (p' == Wait && sp'.SpinTest?))
    case Work => g' == g && (p' == Check || (p' == Requeue && sp' == FS.Add(1, false)))
    case _ => false
  }

  /** How a critical section of put leaves the submitter. */
  ghost predicate PutLeaves(g: Shared, x: PQ.Item, end: PQ.PutEnd, t: Tid, g': Shared, p': PC, sp': FS.PC) {
    match end
    case Accepted => g' == g.(owner := By(t), q := g'.q) && p' == Deliver && sp' == FS.Add(1, false)
    case Asleep => g' == g.(q := g'.q) && p' == Sleep(x)
    case Rejected => g' == g.(q := g'.q) && p' == Out
  }

  ghost predicate OtherStep(g: Shared, p: PC, allExited: bool, t: Tid, g': Shared, p': PC, sp': FS.PC) {
    match p
    case Out =>
      || (g' == g && !g.closed && p'.Submit?)
      || (!g.closed && g' == g.(closed := true) && p'.CloseQueue?)
    case Submit(x) =>
      g.owner == Free && exists end :: PQ.PutStep(g.q, x, g'.q, end) && PutLeaves(g, x, end, t, g', p', sp')
    case Sleep(x) =>
      g.owner == Free && exists n, end ::
          PQ.ResumeStep(g.q, x, n, false, g'.q, end) && PutLeaves(g, x, end, t, g', p', sp')
    case CloseQueue(now) =>
      g.owner == Free && g' == g.(q := PQ.Deactivate(g.q)) && p' == CloseSem(now) && sp' == FS.Close
    case Flag(now) => g' == (if now then g.(shtdwnNow := true) else g.(shtdwn := true)) && p' == Join
    case Join => allExited && g' == g && p' == Done
    case _ => false
  }

  /** The call of the semaphore has returned. */
  ghost predicate ReturnStep(g: Shared, p: PC, g': Shared, p': PC) {
    match p
    case Wait => g' == g && p' == Check
    case Requeue => g' == g && p' == Check
    case Deliver => g' == g.(owner := Free) && p' == Out
    case CloseSem(now) => g' == g && p' == Flag(now)
    case _ => false
  }

  /** The work-stealing deques, one operation at a time: a worker's own deque yields a task
      exactly when it holds one; a scan of the others may miss theirs; a task that is not
      complete after a run goes back. */
  ghost predicate Books(led: Ledger, p: PC, t: Tid, led': Ledger, p': PC)
    requires t < |led.own|
  {
    match p
    case Own =>
      if led.own[t] > 0 then p' == Work && led' == led.(own := led.own[t := led.own[t] - 1])
      else p' == Global && led' == led
    case Steal =>
      if p' == Work then
        exists u: Tid :: u < |led.own| && u != t && led.own[u] > 0 && led' == led.(own := led.own[u := led.own[u] - 1])
      else led' == led
    case Work =>
      if p' == Requeue then led' == led.(own := led.own[t := led.own[t] + 1], requeued := led.requeued + 1)
      else led' == led.(completed := led.completed + 1)
    case _ => led' == led
  }

  ghost predicate AllExited(pc: seq<PC>) {
    forall t :: 0 <= t < |pc| && Worker(pc[t]) ==> pc[t] == Exit
  }

  ghost predicate Step(s: State, t: Tid, s': State)
    requires t < |s.pc| == |s.sem.pc| == |s.latch| == |s.led.own|
  {
    && |s'.pc| == |s.pc| && |s'.sem.pc| == |s.pc|
    && Books(s.led, s.pc[t], t, s'.led, s'.pc[t])
    && s'.pc == s.pc[t := s'.pc[t]]
    && s'.latch == s.latch[t := s.latch[t] || (s.pc[t].Check? && s.g.shtdwn)]
    && s'.taker == (if s'.g.q.taken == s.g.q.taken then s.taker else s.taker + [t])
    && var p, sp, p', sp' := s.pc[t], s.sem.pc[t], s'.pc[t], s'.sem.pc[t];
       if InSem(p) && sp != FS.Idle then
         s'.g == s.g && p' == p && FS.Step(s.sem, t, s'.sem)
       else
         && (if sp' == FS.Idle then s'.sem == s.sem else FS.Step(s.sem, t, s'.sem))
         && (|| (InSem(p) && sp' == FS.Idle && ReturnStep(s.g, p, s'.g, p'))
             || (Worker(p) && WorkerStep(s.g, p, s.latch[t], t, s'.g, p', sp') && (sp' != FS.Idle <==> InSem(p')))
             || (!Worker(p) && OtherStep(s.g, p, AllExited(s.pc), t, s'.g, p', sp') && (sp' != FS.Idle <==> InSem(p'))))
  }

  ghost predicate Next(s: State, s': State) {
    |s.pc| == |s.sem.pc| == |s.latch| == |s.led.own| && exists t: Tid :: t < |s.pc| && Step(s, t, s')
  }

  /** A step of a thread outside the semaphore, put together from its parts. */
  lemma Assemble(s: State, t: Tid, s': State)
    requires t < |s.pc| == |s.sem.pc| == |s.latch| == |s.led.own| && |s'.pc| == |s'.sem.pc| == |s.pc|
        && s.sem.pc[t] == FS.Idle
    requires s'.pc == s.pc[t := s'.pc[t]] && Books(s.led, s.pc[t], t, s'.led, s'.pc[t])
    requires s'.latch == s.latch[t := s.latch[t] || (s.pc[t].Check? && s.g.shtdwn)]
    requires s'.taker == if s'.g.q.taken == s.g.q.taken then s.taker else s.taker + [t]
    requires if s'.sem.pc[t] == FS.Idle then s'.sem == s.sem else FS.Step(s.sem, t, s'.sem)
    requires s'.sem.pc[t] != FS.Idle <==> InSem(s'.pc[t])
    requires if Worker(s.pc[t]) then WorkerStep(s.g, s.pc[t], s.latch[t], t, s'.g, s'.pc[t], s'.sem.pc[t])
             else OtherStep(s.g, s.pc[t], AllExited(s.pc), t, s'.g, s'.pc[t], s'.sem.pc[t])
    ensures Step(s, t, s')
  {
  }

  /** A call of the semaphore that returns. */
  lemma AssembleReturn(s: State, t: Tid, s': State)
    requires t < |s.pc| == |s.sem.pc| == |s.latch| == |s.led.own| && |s'.pc| == |s.pc|
    requires s' == s.(g := s'.g, pc := s'.pc) && s'.pc == s.pc[t := s'.pc[t]] && s.latch == s.latch[t := s.latch[t]]
    requires InSem(s.pc[t]) && s.sem.pc[t] == FS.Idle && ReturnStep(s.g, s.pc[t], s'.g, s'.pc[t])
    ensures Step(s, t, s')
  {
  }

  /** An access inside the semaphore. */
  lemma AssembleSem(s: State, t: Tid, s': State)
    requires t < |s.pc| == |s.sem.pc| == |s.latch| == |s.led.own| && |s'.sem.pc| == |s.pc|
    requires s' == s.(sem := s'.sem) && InSem(s.pc[t]) && s.sem.pc[t] != FS.Idle && FS.Step(s.sem, t, s'.sem)
    ensures Step(s, t, s')
  {
    assert s.pc == s.pc[t := s.pc[t]] && s.latch == s.latch[t := s.latch[t]];
  }

  // The invariant ---------------------------------------------------------------

  /** Where a thread may stand in the semaphore, given where it stands in the pool. */
  predicate Fits(p: PC, sp: FS.PC) {
    match p
    case Wait =>
      || sp.Idle? || sp.SpinTest? || sp.Subtract? || sp.Decide? || sp.Block?
      || ((sp.TryLoad? || sp.TryActive? || sp.TryCas?) && sp.who.InWait?)
    case Requeue => sp.Idle? || ((sp.Add? || sp.Kernel?) && !sp.closing)
    case Deliver => sp.Idle? || (sp.Add? && !sp.closing && sp.count == 1) || (sp.Kernel? && !sp.closing)
    case CloseSem(_) => sp.Idle? || sp.Close? || sp.Measure? || ((sp.Add? || sp.Kernel?) && sp.closing)
    case _ => sp.Idle?
  }

  /** This thread will look at the global queue again before it sleeps, or is about to
      post for an item it has pushed. */
  predicate Hope(p: PC, sp: FS.PC) {
    || p.Check? || p.Empty? || p.Now? || p.Own? || p.Global? || p.Work? || p.Requeue?
    || (p.Wait? && sp.Idle?)
    || (p.Deliver? && sp.Add?)
  }

  /** A wait that begins now would pass, or a blocked thread can get a token. */
  ghost predicate Avail(sem: FS.State) { FS.Tokens(sem) > 0 || sem.g.count > 0 }

  ghost predicate Hopeful(s: State)
    requires |s.pc| == |s.sem.pc|
  {
    exists t :: 0 <= t < |s.pc| && Hope(s.pc[t], s.sem.pc[t])
  }

  /** What a thread at p may rely on. */
  ghost predicate Closing(g: Shared, sem: FS.State, p: PC, sp: FS.PC) {
    && (p.CloseSem? || p.Flag? || p.Join? || p.Done? || p.Exit? ==> !g.q.active)
    && (p.Flag? || p.Join? || p.Done? ==> sem.h.closed)
    && (p.CloseSem? && (sp.Idle? || sp.Kernel?) ==> sem.h.closed)
    && (p.Exit? ==> g.shtdwnNow || g.q.items == multiset{})
    && (p.Empty? ==> g.shtdwn)
  }

  /** Every task taken is complete, in the hands of a worker, or in a deque. */
  ghost predicate Balanced(q: PQ.State, pc: seq<PC>, led: Ledger) {
    && |led.own| == |pc|
    && |q.taken| == led.completed + Count(pc, Busy) + Sum(led.own, Same)
    && (led.requeued == 0 ==> Sum(led.own, Same) == 0)
  }

  predicate Busy(p: PC) { p.Work? }

  function Same(n: nat): nat { n }

  ghost predicate Inv(s: State) {
    && |s.pc| == |s.sem.pc| == |s.latch| == |s.led.own|
    && Balanced(s.g.q, s.pc, s.led)
    && FS.Inv(s.sem) && PQ.Inv(s.g.q)
    && (forall t :: 0 <= t < |s.pc| ==> (s.g.owner == By(t) <==> s.pc[t].Deliver?))
    && (s.g.owner.By? ==> s.g.owner.t < |s.pc|)
    && (forall t :: 0 <= t < |s.pc| ==> Fits(s.pc[t], s.sem.pc[t]))
    && (forall t :: 0 <= t < |s.pc| ==> Closing(s.g, s.sem, s.pc[t], s.sem.pc[t]))
    && (forall t :: 0 <= t < |s.pc| && s.latch[t] ==> s.g.shtdwn)
    && (s.g.shtdwn || s.g.shtdwnNow ==> !s.g.q.active && s.sem.h.closed)
    && (s.g.q.items != multiset{} ==> s.g.shtdwnNow || Avail(s.sem) || Hopeful(s))
    && |s.taker| == |s.g.q.taken|
    && (forall k :: 0 <= k < |s.taker| ==> s.taker[k] < |s.pc| && Worker(s.pc[s.taker[k]]))
    && ((exists t :: 0 <= t < |s.pc| && s.pc[t].Done?) ==> AllExited(s.pc))
  }

  lemma InitInv(s: State)
    requires Init(s)
    ensures Inv(s)
  {
    FS.InitInv(s.sem);
    CountZero(s.pc, Busy);
    SumZero(s.led.own, Same);
  }

  // Steps of the semaphore ------------------------------------------------------

  lemma FitsStep(p: PC, g: FS.Shared, sp: FS.PC, g': FS.Shared, sp': FS.PC)
    requires InSem(p) && Fits(p, sp) && sp != FS.Idle && FS.Act(g, sp, g', sp')
    ensures Fits(p, sp')
  {
  }

  /** Tokens and a positive count go only to a thread whose wait is over. */
  lemma AvailAct(g: FS.Shared, sp: FS.PC, g': FS.Shared, sp': FS.PC)
    requires FS.Act(g, sp, g', sp') && !sp.Answer? && sp' != FS.Answer(true)
    requires g.kernel + FS.Promised(sp) > 0 || g.count > 0
    ensures g'.kernel + FS.Promised(sp') > 0 || g'.count > 0 || (sp'.Idle? && (sp.TryCas? || sp.Subtract? || sp.Block?))
    ensures g'.kernel + FS.Promised(sp') < g.kernel + FS.Promised(sp) ==> sp'.Idle? && sp.Block?
    ensures g'.count <= 0 < g.count ==> sp'.Idle? && (sp.TryCas? || sp.Subtract?)
  {
  }

  lemma AvailStep(sem: FS.State, t: Tid, sem': FS.State)
    requires t < |sem.pc| && FS.Step(sem, t, sem') && Avail(sem) && sem'.pc[t] != FS.Answer(true) && !sem.pc[t].Answer?
    ensures Avail(sem') || (sem'.pc[t].Idle? && (sem.pc[t].TryCas? || sem.pc[t].Subtract? || sem.pc[t].Block?))
  {
    SumUpdate(sem.pc, t, sem'.pc[t], FS.Promised);
    SumAtLeast(sem.pc, t, FS.Promised);
    if sem.g.kernel + FS.Promised(sem.pc[t]) > 0 || sem.g.count > 0 {
      AvailAct(sem.g, sem.pc[t], sem'.g, sem'.pc[t]);
    }
  }

  /** The fetch_add of a post of a positive count makes the semaphore available. */
  lemma AvailAdd(sem: FS.State, t: Tid, sem': FS.State)
    requires t < |sem.pc| && FS.Step(sem, t, sem') && sem.pc[t].Add? && sem.pc[t].count > 0
    ensures Avail(sem')
  {
    SumAtLeast(sem'.pc, t, FS.Promised);
  }

  // Preservation ------------------------------------------------------------------

  lemma SemInv(sem: FS.State, t: Tid, sem': FS.State)
    requires FS.Inv(sem) && t < |sem.pc| && (sem' == sem || FS.Step(sem, t, sem'))
    ensures FS.Inv(sem') && (sem.h.closed ==> sem'.h.closed)
  {
    if sem' != sem {
      assert FS.Next(sem, sem');
      FS.NextInv(sem, sem');
    }
  }

  /** One critical section of the queue, or none. */
  ghost predicate QueueMoves(q: PQ.State, q': PQ.State) {
    && PQ.Inv(q')
    && (!q.active ==> !q'.active && (q.items == multiset{} ==> q'.items == multiset{}))
    && (q'.taken == q.taken || |q'.taken| == |q.taken| + 1)
  }

  lemma SectionMoves(q: PQ.State, c: PQ.Section, q': PQ.State)
    requires PQ.Inv(q) && PQ.Does(q, c, q')
    ensures QueueMoves(q, q') && (q'.taken != q.taken ==> c.Take?)
  {
    assert PQ.Next(q, q');
    PQ.NextInv(q, q');
    if !q.active { PQ.InactiveStep(q, c, q'); }
  }

  /** What a step means to the rest of the pool. */
  ghost predicate Effects(s: State, t: Tid, s': State)
    requires t < |s.pc| == |s.sem.pc| == |s'.pc| == |s'.sem.pc|
  {
    var g, p, sp, g', p', sp' := s.g, s.pc[t], s.sem.pc[t], s'.g, s'.pc[t], s'.sem.pc[t];
    && FS.Inv(s'.sem) && s'.sem.pc == s.sem.pc[t := sp']
    && QueueMoves(g.q, g'.q)
    && (if p.Deliver? == p'.Deliver? then g'.owner == g.owner
        else if p'.Deliver? then g.owner == Free && g'.owner == By(t) else g'.owner == Free)
    && Fits(p', sp')
    && Closing(g', s'.sem, p', sp')
    && (g.shtdwn ==> g'.shtdwn) && (g.shtdwnNow ==> g'.shtdwnNow) && (s.sem.h.closed ==> s'.sem.h.closed)
    && (g'.shtdwn || g'.shtdwnNow ==> !g'.q.active && s'.sem.h.closed)
    && Worker(p') == Worker(p) && (p.Exit? ==> p'.Exit?)
    && (p'.Done? && !p.Done? ==> AllExited(s.pc))
    && (g'.q.taken != g.q.taken ==> Worker(p))
    && (g'.q.items != multiset{} ==>
          g'.shtdwnNow || Avail(s'.sem) || Hope(p', sp') || (g.q.items != multiset{} && !Hope(p, sp) && !Avail(s.sem)))
  }

  lemma SemEffects(s: State, t: Tid, s': State)
    requires Inv(s) && t < |s.pc| == |s'.pc| == |s'.sem.pc|
    requires InSem(s.pc[t]) && s.sem.pc[t] != FS.Idle
    requires s'.g == s.g && s'.pc[t] == s.pc[t] && FS.Step(s.sem, t, s'.sem)
    ensures Effects(s, t, s')
  {
    var p, sp, sp' := s.pc[t], s.sem.pc[t], s'.sem.pc[t];
    SemInv(s.sem, t, s'.sem);
    FitsStep(p, s.sem.g, sp, s'.sem.g, sp');
    if Avail(s.sem) { AvailStep(s.sem, t, s'.sem); }
    if sp.Add? && sp.count > 0 { AvailAdd(s.sem, t, s'.sem); }
  }

  lemma ReturnEffects(s: State, t: Tid, s': State)
    requires Inv(s) && t < |s.pc| == |s'.pc| == |s'.sem.pc|
    requires InSem(s.pc[t]) && s.sem.pc[t] == FS.Idle && s'.sem == s.sem
    requires ReturnStep(s.g, s.pc[t], s'.g, s'.pc[t])
    ensures Effects(s, t, s')
  {
    assert s.sem.pc[t := FS.Idle] == s.sem.pc;
  }

  lemma CallSem(sem: FS.State, t: Tid, sem': FS.State)
    requires FS.Inv(sem) && t < |sem.pc| == |sem'.pc| && sem.pc[t] == FS.Idle
    requires if sem'.pc[t] == FS.Idle then sem' == sem else FS.Step(sem, t, sem')
    ensures FS.Inv(sem') && sem'.pc == sem.pc[t := sem'.pc[t]] && sem'.h == sem.h && sem'.g == sem.g
    ensures Avail(sem) ==> Avail(sem')
  {
    SemInv(sem, t, sem');
    if Avail(sem) && sem' != sem { AvailStep(sem, t, sem'); }
  }

  /** Where a worker goes without touching the flags and the queue. */
  ghost predicate Walks(g: Shared, p: PC, latched: bool, p': PC, sp': FS.PC) {
    && Worker(p) && Worker(p') && !p.Exit? && Fits(p', sp')
    && (p'.Exit? ==> (p.Empty? && g.q.items == multiset{}) || (p.Now? && g.shtdwnNow))
    && (p'.Empty? ==> latched || g.shtdwn)
    && (g.q.items != multiset{} && !g.shtdwnNow ==> Hope(p', sp') || !Hope(p, FS.Idle))
  }

  lemma WorkerWalks(g: Shared, p: PC, latched: bool, t: Tid, p': PC, sp': FS.PC)
    requires Worker(p) && WorkerStep(g, p, latched, t, g, p', sp') && (sp' != FS.Idle <==> InSem(p'))
    requires p.Global? ==> g.q.items == multiset{}
    ensures Walks(g, p, latched, p', sp')
  {
  }

  /** Steps that leave the shared flags and the queue alone. */
  lemma QuietEffects(s: State, t: Tid, s': State)
    requires Local(s, t) && t < |s'.pc| == |s'.sem.pc| == |s.pc| && s'.g == s.g
    requires FS.Inv(s'.sem) && s'.sem.pc == s.sem.pc[t := s'.sem.pc[t]] && s'.sem.h == s.sem.h
    requires Avail(s.sem) ==> Avail(s'.sem)
    requires Walks(s.g, s.pc[t], s.latch[t], s'.pc[t], s'.sem.pc[t])
    ensures Effects(s, t, s')
  {
  }

  /** What thread t, outside the semaphore, needs of the invariant. */
  ghost predicate Local(s: State, t: Tid) {
    && t < |s.pc| == |s.sem.pc| == |s.latch| && s.sem.pc[t] == FS.Idle
    && PQ.Inv(s.g.q)
    && Closing(s.g, s.sem, s.pc[t], FS.Idle)
    && (s.latch[t] ==> s.g.shtdwn)
    && (s.g.shtdwn || s.g.shtdwnNow ==> !s.g.q.active && s.sem.h.closed)
  }

  /** A worker takes an item from the global queue. */
  lemma TakeEffects(s: State, t: Tid, s': State)
    requires Local(s, t) && t < |s'.pc| == |s'.sem.pc| == |s.pc|
    requires s'.sem == s.sem && FS.Inv(s.sem)
    requires s.pc[t] == Global && s'.pc[t] == Work && s'.g == s.g.(q := s'.g.q) && QueueMoves(s.g.q, s'.g.q)
    ensures Effects(s, t, s')
  {
    assert s.sem.pc[t := FS.Idle] == s.sem.pc;
  }

  lemma WorkerEffects(s: State, t: Tid, s': State)
    requires FS.Inv(s.sem) && Local(s, t) && t < |s'.pc| == |s'.sem.pc| == |s.pc| && Worker(s.pc[t])
    requires if s'.sem.pc[t] == FS.Idle then s'.sem == s.sem else FS.Step(s.sem, t, s'.sem)
    requires WorkerStep(s.g, s.pc[t], s.latch[t], t, s'.g, s'.pc[t], s'.sem.pc[t])
    requires s'.sem.pc[t] != FS.Idle <==> InSem(s'.pc[t])
    ensures Effects(s, t, s')
  {
    CallSem(s.sem, t, s'.sem);
    if s.pc[t].Global? && s.g.q.items != multiset{} {
      var x :| PQ.TakeStep(s.g.q, x, s'.g.q);
      SectionMoves(s.g.q, PQ.Take(x), s'.g.q);
      TakeEffects(s, t, s');
    } else {
      WorkerWalks(s.g, s.pc[t], s.latch[t], t, s'.pc[t], s'.sem.pc[t]);
      QuietEffects(s, t, s');
    }
  }

  /** A submitter leaves a critical section of put that accepted its item. */
  lemma AcceptEffects(s: State, x: PQ.Item, t: Tid, s': State)
    requires FS.Inv(s'.sem) && Local(s, t) && t < |s'.pc| == |s'.sem.pc| == |s.pc| && s.g.owner == Free
    requires s'.sem.pc == s.sem.pc[t := s'.sem.pc[t]] && s'.sem.h == s.sem.h
    requires s.pc[t].Submit? || s.pc[t].Sleep?
    requires QueueMoves(s.g.q, s'.g.q) && s'.g.q.taken == s.g.q.taken
    requires PutLeaves(s.g, x, PQ.Accepted, t, s'.g, s'.pc[t], s'.sem.pc[t])
    ensures Effects(s, t, s')
  {
  }

  /** ... that did not accept it. */
  lemma RefuseEffects(s: State, x: PQ.Item, end: PQ.PutEnd, t: Tid, s': State)
    requires FS.Inv(s'.sem) && Local(s, t) && t < |s'.pc| == |s'.sem.pc| == |s.pc| && s.g.owner == Free
    requires s'.sem.pc == s.sem.pc[t := s'.sem.pc[t]] && s'.sem.h == s.sem.h && (Avail(s.sem) ==> Avail(s'.sem))
    requires s.pc[t].Submit? || s.pc[t].Sleep?
    requires QueueMoves(s.g.q, s'.g.q) && s'.g.q.taken == s.g.q.taken && s'.g.q.items == s.g.q.items
    requires end != PQ.Accepted && PutLeaves(s.g, x, end, t, s'.g, s'.pc[t], s'.sem.pc[t])
    requires s'.sem.pc[t] == FS.Idle
    ensures Effects(s, t, s')
  {
  }

  /** A submitter leaves a critical section of put. */
  lemma PutEffects(s: State, x: PQ.Item, c: PQ.Section, end: PQ.PutEnd, t: Tid, s': State)
    requires FS.Inv(s'.sem) && Local(s, t) && t < |s'.pc| == |s'.sem.pc| == |s.pc| && s.g.owner == Free
    requires s'.sem.pc == s.sem.pc[t := s'.sem.pc[t]] && s'.sem.h == s.sem.h && (Avail(s.sem) ==> Avail(s'.sem))
    requires (s.pc[t] == Submit(x) && c == PQ.Put(x, end)) || (s.pc[t] == Sleep(x)
        && exists n :: c == PQ.Resume(x, n, false, end))
    requires PQ.Does(s.g.q, c, s'.g.q) && PutLeaves(s.g, x, end, t, s'.g, s'.pc[t], s'.sem.pc[t])
    requires s'.sem.pc[t] != FS.Idle <==> InSem(s'.pc[t])
    ensures Effects(s, t, s')
  {
    SectionMoves(s.g.q, c, s'.g.q);
    PutItems(s.g.q, x, c, end, s'.g.q);
    if end == PQ.Accepted {
      AcceptEffects(s, x, t, s');
    } else {
      RefuseEffects(s, x, end, t, s');
    }
  }

  lemma PutItems(q: PQ.State, x: PQ.Item, c: PQ.Section, end: PQ.PutEnd, q': PQ.State)
    requires c == PQ.Put(x, end) || exists n :: c == PQ.Resume(x, n, false, end)
    requires PQ.Does(q, c, q')
    ensures end != PQ.Accepted ==> q'.items == q.items
  {
  }

  /** The other steps of submit and shutdown. */
  lemma CloserEffects(s: State, t: Tid, s': State)
    requires Local(s, t) && t < |s'.pc| == |s'.sem.pc| == |s.pc|
    requires FS.Inv(s'.sem) && s'.sem.pc == s.sem.pc[t := s'.sem.pc[t]] && s'.sem.h == s.sem.h
    requires Avail(s.sem) ==> Avail(s'.sem)
    requires s.pc[t].Out? || s.pc[t].CloseQueue? || s.pc[t].Flag? || s.pc[t].Join?
    requires OtherStep(s.g, s.pc[t], AllExited(s.pc), t, s'.g, s'.pc[t], s'.sem.pc[t])
    requires s'.sem.pc[t] != FS.Idle <==> InSem(s'.pc[t])
    ensures Effects(s, t, s')
  {
    if s.pc[t].CloseQueue? {
      SectionMoves(s.g.q, PQ.Close, s'.g.q);
    }
  }

  lemma OtherEffects(s: State, t: Tid, s': State)
    requires FS.Inv(s.sem) && Local(s, t) && t < |s'.pc| == |s'.sem.pc| == |s.pc| && !Worker(s.pc[t])
    requires if s'.sem.pc[t] == FS.Idle then s'.sem == s.sem else FS.Step(s.sem, t, s'.sem)
    requires OtherStep(s.g, s.pc[t], AllExited(s.pc), t, s'.g, s'.pc[t], s'.sem.pc[t])
    requires s'.sem.pc[t] != FS.Idle <==> InSem(s'.pc[t])
    ensures Effects(s, t, s')
  {
    CallSem(s.sem, t, s'.sem);
    match s.pc[t] {
      case Submit(x) =>
        var end :| PQ.PutStep(s.g.q, x, s'.g.q, end) && PutLeaves(s.g, x, end, t, s'.g, s'.pc[t], s'.sem.pc[t]);
        PutEffects(s, x, PQ.Put(x, end), end, t, s');
      case Sleep(x) =>
        var n, end :| PQ.ResumeStep(s.g.q, x, n, false, s'.g.q, end)
            && PutLeaves(s.g, x, end, t, s'.g, s'.pc[t], s'.sem.pc[t]);
        PutEffects(s, x, PQ.Resume(x, n, false, end), end, t, s');
      case _ =>
        CloserEffects(s, t, s');
    }
  }

  lemma StepEffects(s: State, t: Tid, s': State)
    requires Inv(s) && t < |s.pc| && Step(s, t, s')
    ensures Effects(s, t, s')
  {
    var p, sp, p', sp' := s.pc[t], s.sem.pc[t], s'.pc[t], s'.sem.pc[t];
    if InSem(p) && sp != FS.Idle {
      SemEffects(s, t, s');
    } else {
      assert sp == FS.Idle;
      if InSem(p) && sp' == FS.Idle && ReturnStep(s.g, p, s'.g, p') {
        ReturnEffects(s, t, s');
      } else if Worker(p) {
        WorkerEffects(s, t, s');
      } else {
        OtherEffects(s, t, s');
      }
    }
  }

  /** Only thread t has moved, and only it may have latched the flag or taken an item. */
  ghost predicate Moved(s: State, t: Tid, s': State) {
    && t < |s.pc| == |s.sem.pc| == |s.latch|
    && |s'.pc| == |s'.sem.pc| == |s.pc| && s'.pc == s.pc[t := s'.pc[t]]
    && s'.latch == s.latch[t := s.latch[t] || (s.pc[t].Check? && s.g.shtdwn)]
    && s'.taker == (if s'.g.q.taken == s.g.q.taken then s.taker else s.taker + [t])
    && Effects(s, t, s')
  }

  lemma StepOwner(s: State, t: Tid, s': State)
    requires Inv(s) && Moved(s, t, s')
    ensures forall u :: 0 <= u < |s'.pc| ==> (s'.g.owner == By(u) <==> s'.pc[u].Deliver?)
    ensures s'.g.owner.By? ==> s'.g.owner.t < |s'.pc|
  {
  }

  lemma StepThreads(s: State, t: Tid, s': State)
    requires Inv(s) && Moved(s, t, s')
    ensures forall u :: 0 <= u < |s'.pc| ==>
        Fits(s'.pc[u], s'.sem.pc[u]) && Closing(s'.g, s'.sem, s'.pc[u], s'.sem.pc[u])
    ensures forall u :: 0 <= u < |s'.pc| && s'.latch[u] ==> s'.g.shtdwn
  {
    forall u | 0 <= u < |s'.pc|
      ensures Fits(s'.pc[u], s'.sem.pc[u]) && Closing(s'.g, s'.sem, s'.pc[u], s'.sem.pc[u]) {
      if u != t {
        assert s'.pc[u] == s.pc[u] && s'.sem.pc[u] == s.sem.pc[u];
        assert Fits(s.pc[u], s.sem.pc[u]) && Closing(s.g, s.sem, s.pc[u], s.sem.pc[u]);
      }
    }
  }

  lemma StepHope(s: State, t: Tid, s': State)
    requires Inv(s) && Moved(s, t, s')
    ensures s'.g.q.items != multiset{} ==> s'.g.shtdwnNow || Avail(s'.sem) || Hopeful(s')
  {
    if s'.g.q.items != multiset{} && !s'.g.shtdwnNow && !Avail(s'.sem) {
      if Hope(s'.pc[t], s'.sem.pc[t]) {
      } else {
        var u :| 0 <= u < |s.pc| && Hope(s.pc[u], s.sem.pc[u]);
        assert s'.pc[u] == s.pc[u] && s'.sem.pc[u] == s.sem.pc[u];
      }
    }
  }

  lemma StepTakers(s: State, t: Tid, s': State)
    requires Inv(s) && Moved(s, t, s')
    ensures |s'.taker| == |s'.g.q.taken|
    ensures forall k :: 0 <= k < |s'.taker| ==> s'.taker[k] < |s'.pc| && Worker(s'.pc[s'.taker[k]])
    ensures (exists u :: 0 <= u < |s'.pc| && s'.pc[u].Done?) ==> AllExited(s'.pc)
  {
    if u :| 0 <= u < |s'.pc| && s'.pc[u].Done? {
      assert AllExited(s.pc) by {
        if u != t || s.pc[t].Done? { assert s.pc[u].Done?; }
      }
      forall w | 0 <= w < |s'.pc| && Worker(s'.pc[w]) ensures s'.pc[w] == Exit {
        assert Worker(s.pc[w]);
      }
    }
  }

  /** A worker comes by a task at three places, only one of which takes from the queue. */
  ghost predicate Turns(q: PQ.State, p: PC, q': PQ.State, p': PC) {
    && |q'.taken| == |q.taken| + B(p.Global? && p'.Work?)
    && (p.Work? ==> p'.Check? || p'.Requeue?)
    && (p'.Work? ==> p.Own? || p.Steal? || p.Global?)
  }

  lemma WorkerTurns(g: Shared, p: PC, latched: bool, t: Tid, g': Shared, p': PC, sp': FS.PC)
    requires WorkerStep(g, p, latched, t, g', p', sp')
    ensures Turns(g.q, p, g'.q, p')
  {
    if p.Global? && g.q.items != multiset{} {
      var x :| PQ.TakeStep(g.q, x, g'.q);
      PQ.WakeKeeps(PQ.Pop(g.q, x));
    }
  }

  lemma OtherTurns(g: Shared, p: PC, allExited: bool, t: Tid, g': Shared, p': PC, sp': FS.PC)
    requires !Worker(p) && OtherStep(g, p, allExited, t, g', p', sp')
    ensures Turns(g.q, p, g'.q, p')
  {
    match p {
      case Submit(x) =>
        var end :| PQ.PutStep(g.q, x, g'.q, end) && PutLeaves(g, x, end, t, g', p', sp');
      case Sleep(x) =>
        var n, end :| PQ.ResumeStep(g.q, x, n, false, g'.q, end) && PutLeaves(g, x, end, t, g', p', sp');
      case _ =>
    }
  }

  lemma StepTurns(s: State, t: Tid, s': State)
    requires t < |s.pc| == |s.sem.pc| == |s.latch| == |s.led.own| && Step(s, t, s')
    requires Fits(s.pc[t], s.sem.pc[t])
    ensures Turns(s.g.q, s.pc[t], s'.g.q, s'.pc[t])
  {
    var p, sp, p', sp' := s.pc[t], s.sem.pc[t], s'.pc[t], s'.sem.pc[t];
    if InSem(p) {
    } else if Worker(p) {
      WorkerTurns(s.g, p, s.latch[t], t, s'.g, p', sp');
    } else {
      OtherTurns(s.g, p, AllExited(s.pc), t, s'.g, p', sp');
    }
  }

  lemma BooksBalance(q: PQ.State, pc: seq<PC>, led: Ledger, t: Tid, q': PQ.State, pc': seq<PC>, led': Ledger)
    requires Balanced(q, pc, led) && t < |pc| == |pc'| && pc' == pc[t := pc'[t]]
    requires Books(led, pc[t], t, led', pc'[t])
    requires Turns(q, pc[t], q', pc'[t])
    ensures Balanced(q', pc', led')
  {
    CountUpdate(pc, t, pc'[t], Busy);
    if pc[t].Own? && led.own[t] > 0 {
      SumUpdate(led.own, t, led.own[t] - 1, Same);
    } else if pc[t].Steal? && pc'[t] == Work {
      var u: Tid :| u < |led.own| && u != t && led.own[u] > 0 && led' == led.(own := led.own[u := led.own[u] - 1]);
      SumUpdate(led.own, u, led.own[u] - 1, Same);
    } else if pc[t].Work? && pc'[t] == Requeue {
      SumUpdate(led.own, t, led.own[t] + 1, Same);
    }
  }

  lemma NextInv(s: State, s': State)
    requires Inv(s) && Next(s, s')
    ensures Inv(s')
  {
    var t: Tid :| t < |s.pc| && Step(s, t, s');
    StepEffects(s, t, s');
    StepTurns(s, t, s');
    BooksBalance(s.g.q, s.pc, s.led, t, s'.g.q, s'.pc, s'.led);
    StepKept(s, t, s');
  }

  lemma StepKept(s: State, t: Tid, s': State)
    requires Inv(s) && Moved(s, t, s') && Balanced(s'.g.q, s'.pc, s'.led)
    ensures Inv(s')
  {
    StepOwner(s, t, s');
    StepThreads(s, t, s');
    StepHope(s, t, s');
    StepTakers(s, t, s');
  }

  ghost predicate Run(tr: seq<State>) { IsRun(Init, Next, tr) }

  lemma RunInv(tr: seq<State>, i: nat)
    requires Run(tr) && i < |tr|
    ensures Inv(tr[i])
  {
    forall s | Init(s) ensures Inv(s) { InitInv(s); }
    forall s, s' | Inv(s) && Next(s, s') ensures Inv(s') { NextInv(s, s'); }
    Always(Init, Next, Inv, tr, i);
  }

  // What every run guarantees -------------------------------------------------------

  /** Every worker that is still running is blocked on the kernel semaphore. */
  ghost predicate AllAsleep(s: State)
    requires |s.pc| == |s.sem.pc|
  {
    forall t :: 0 <= t < |s.pc| && Worker(s.pc[t]) && !s.pc[t].Exit? ==> s.sem.pc[t].Block?
  }

  /** No thread is inside post. */
  ghost predicate NobodyPosts(s: State) {
    forall t :: 0 <= t < |s.sem.pc| ==> !s.sem.pc[t].Add? && !s.sem.pc[t].Kernel?
  }

  /** The pool never sleeps on queued work: with a non-empty global queue and nobody in
      the middle of a post, if every worker that is still running is blocked on the semaphore
      then a kernel token is there to wake one. */
  lemma NoSleepingPool(tr: seq<State>, i: nat, w: Tid)
    requires Run(tr) && i < |tr| && w < |tr[i].pc| == |tr[i].sem.pc| && Worker(tr[i].pc[w]) && !tr[i].pc[w].Exit?
    requires tr[i].g.q.items != multiset{} && NobodyPosts(tr[i]) && AllAsleep(tr[i])
    ensures tr[i].sem.g.kernel > 0
  {
    RunInv(tr, i);
    var s := tr[i];
    if s.sem.g.kernel == 0 {
      SumZero(s.sem.pc, FS.Promised);
      CountHas(s.sem.pc, w, FS.Blocked);
    }
  }

  /** Once a worker has left its loop, and not because of shutdown_now, the global queue is
      empty for good: every task it ever accepted was taken, the k-th one by worker taker[k]
      and by no other. */
  lemma ShutdownDrains(tr: seq<State>, i: nat, w: Tid)
    requires Run(tr) && i < |tr| && w < |tr[i].pc| && tr[i].pc[w].Exit? && !tr[i].g.shtdwnNow
    ensures tr[i].g.q.items == multiset{} && !tr[i].g.q.active
    ensures tr[i].g.q.accepted == multiset(tr[i].g.q.taken)
    ensures |tr[i].taker| == |tr[i].g.q.taken|
         && forall k :: 0 <= k < |tr[i].taker| ==> tr[i].taker[k] < |tr[i].pc| && Worker(tr[i].pc[tr[i].taker[k]])
  {
    RunInv(tr, i);
  }

  /** While the queue is active no worker leaves its loop. */
  lemma ActivePoolRuns(tr: seq<State>, i: nat, w: Tid)
    requires Run(tr) && i < |tr| && tr[i].g.q.active && w < |tr[i].pc|
    ensures !tr[i].pc[w].Exit?
  {
    RunInv(tr, i);
  }

  /** When shutdown returns, all workers have left their loops. */
  lemma ShutdownJoins(tr: seq<State>, i: nat, d: Tid, w: Tid)
    requires Run(tr) && i < |tr| && d < |tr[i].pc| && tr[i].pc[d].Done? && w < |tr[i].pc| && Worker(tr[i].pc[w])
    ensures tr[i].pc[w].Exit?
  {
    RunInv(tr, i);
  }

  lemma ExitStep(s: State, s': State, w: Tid)
    requires Inv(s) && Next(s, s') && w < |s.pc| && s.pc[w].Exit?
    ensures w < |s'.pc| && s'.pc[w].Exit?
  {
    var t: Tid :| t < |s.pc| && Step(s, t, s');
    StepEffects(s, t, s');
  }

  lemma ExitForever(tr: seq<State>, i: nat, j: nat, w: Tid)
    requires Run(tr) && i <= j < |tr| && w < |tr[i].pc| && tr[i].pc[w].Exit?
    ensures w < |tr[j].pc| && tr[j].pc[w].Exit?
  {
    forall s | Init(s) ensures Inv(s) { InitInv(s); }
    forall s, s' | Inv(s) && Next(s, s') ensures Inv(s') { NextInv(s, s'); }
    var exited := (s: State) => w < |s.pc| && s.pc[w].Exit?;
    forall s, s' | Inv(s) && Next(s, s') && exited(s) ensures exited(s') { ExitStep(s, s', w); }
    Forever(Init, Next, Inv, exited, tr, i, j);
  }

  lemma Accounted(s: State)
    requires Inv(s)
    ensures |s.g.q.accepted| == |s.g.q.items| + s.led.completed + Count(s.pc, Busy) + Sum(s.led.own, Same)
  {
    assert |multiset(s.g.q.taken)| == |s.g.q.taken|;
  }

  /** Every task the queue ever accepted is still in it, or complete, or in the hands of a
      worker, or in a work-stealing deque. */
  lemma EveryTaskAccounted(tr: seq<State>, i: nat)
    requires Run(tr) && i < |tr|
    ensures var s := tr[i];
            |s.g.q.accepted| == |s.g.q.items| + s.led.completed + Count(s.pc, Busy) + Sum(s.led.own, Same)
  {
    RunInv(tr, i);
    Accounted(tr[i]);
  }

  /** When shutdown has returned, what is not complete lies in the deques; and nothing does if
      every task was complete after its first run. */
  lemma RestInDeques(tr: seq<State>, i: nat, d: Tid, w: Tid)
    requires Run(tr) && i < |tr| && d < |tr[i].pc| && tr[i].pc[d].Done? && !tr[i].g.shtdwnNow
    requires w < |tr[i].pc| && Worker(tr[i].pc[w])
    ensures var s := tr[i];
            && (s.led.completed == |s.g.q.accepted| <==> forall u :: 0 <= u < |s.led.own| ==> s.led.own[u] == 0)
            && (s.led.requeued == 0 ==> s.led.completed == |s.g.q.accepted|)
  {
    var s := tr[i];
    ShutdownJoins(tr, i, d, w);
    ShutdownDrains(tr, i, w);
    EveryTaskAccounted(tr, i);
    RunInv(tr, i);
    CountZero(s.pc, Busy);
    if forall u :: 0 <= u < |s.led.own| ==> s.led.own[u] == 0 {
      SumZero(s.led.own, Same);
    }
    forall u | 0 <= u < |s.led.own| ensures s.led.own[u] <= Sum(s.led.own, Same) {
      SumAtLeast(s.led.own, u, Same);
    }
  }

  /** And the queue stays empty ever after. */
  lemma EmptyForever(tr: seq<State>, i: nat, j: nat, w: Tid)
    requires Run(tr) && i <= j < |tr| && w < |tr[i].pc| && tr[i].pc[w].Exit? && !tr[j].g.shtdwnNow
    ensures tr[j].g.q.items == multiset{} && tr[j].g.q.accepted == multiset(tr[j].g.q.taken)
  {
    ExitForever(tr, i, j, w);
    ShutdownDrains(tr, j, w);
  }

  /** Shutdown cannot get stuck on the semaphore: after shtdwn_ or shtdwn_now_ is set, whenever a worker
      has not left yet, some worker is not blocked, or a token is there for one that
      is, or a post is about to deliver one. */
  lemma ShutdownNeverStuck(tr: seq<State>, i: nat, w: Tid)
    requires Run(tr) && i < |tr| && (tr[i].g.shtdwn || tr[i].g.shtdwnNow)
    requires w < |tr[i].pc| && Worker(tr[i].pc[w]) && !tr[i].pc[w].Exit?
    ensures |tr[i].sem.pc| == |tr[i].pc|
    ensures || (exists t :: 0 <= t < |tr[i].pc| && Worker(tr[i].pc[t]) && !tr[i].pc[t].Exit? && !tr[i].sem.pc[t].Block?)
            || tr[i].sem.g.kernel > 0
            || (exists t :: 0 <= t < |tr[i].pc| && tr[i].sem.pc[t].Kernel? && tr[i].sem.pc[t].count > 0)
  {
    RunInv(tr, i);
    var s := tr[i];
    if s.sem.pc[w].Block? && s.sem.g.kernel == 0 {
      CountHas(s.sem.pc, w, FS.Blocked);
      var t := SumWitness(s.sem.pc, FS.Promised);
    }
  }
}
