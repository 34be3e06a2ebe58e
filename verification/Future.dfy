/** The shared state behind a future (future.hpp) with its one owner, a promise or a packaged
    task, and any number of waiters. A step is one access to the future object, or taking or
    giving up mtx. Whatever a wait callback or a task body does to the same future is done by
    another activity here: the order that the call stack imposes is not relied on. */
module Future {
  import opened Counting
  import opened Locks
  import opened Options
  import opened Runs

  type Value = nat

  datatype Error = BrokenPromise | Thrown(code: nat)

  /** What finishes a future; set_exception may be handed an empty exception_ptr. */
  datatype Result = Got(v: Value) | Failed(e: Option<Error>)

  const BROKEN := Failed(Some(BrokenPromise))

  /** Who finishes it: set_value or set_exception, ~promise, run, owner_destroyed. */
  datatype Who = Setter | Dropper | Runner | Quitter

  datatype Entry = Entry(r: Result, who: Who)

  datatype Reply = Finished(who: Who) | AlreadySatisfied | AlreadyStarted | FoundDone | FoundStarted
                 | Ready(r: Result) | TimedOut | CallbackThrew

  datatype PC =
    | Out
    // set_value and set_exception
    | SetLock(r: Result)
    | SetTest(r: Result)                      // if future->done
    // ~promise
    | DropLock
    | DropTest                                // if ! future->done
    // task_base::run
    | RunLock
    | RunTest                                 // if started
    | RunMark                                 // started = true
    | RunUnlock
    | Body                                    // f()
    | FinLock(r: Result)                      // mark_finished_with_result, mark_exceptional_finish
    // task_base::owner_destroyed
    | QuitLock
    | QuitTest                                // if ! started
    | QuitMark                                // started = true
    // mark_finished_with_result_internal, mark_exceptional_finish_internal
    | Store(r: Result, who: Who)               // result or exception
    | Done(who: Who)                           // done = true
    | Notify(who: Who)                         // waiters.notify_all
    // wait, get and timed_wait_until
    | WaitLock(timed: bool)
    | WaitCheck(timed: bool)                  // if callback && ! done
    | WaitRelease(timed: bool)                // relocker: unlock
    | Callback(timed: bool)                   // local_callback()
    | WaitRelock(timed: bool, threw: bool)    // ~relocker: lock
    | WaitTest(timed: bool, expired: bool)    // while ! done
    | Asleep(timed: bool)
    | Woken(timed: bool, expired: bool)       // lock mtx again
    | WaitLeave                               // exception, or * result
    | Unlock(reply: Reply)                    // unlock mtx and return, or throw

  datatype Shared = Shared(
    task: bool, callback: bool, done: bool, started: bool,
    result: Option<Value>, exception: Option<Error>, mtx: Owner)

  /** The history: what has been stored, and how often the task body was entered. */
  datatype State = State(g: Shared, settled: seq<Entry>, bodies: nat, pc: seq<PC>)

  ghost predicate Init(s: State) {
    && s.g == Shared(s.g.task, s.g.callback, false, false, None, None, Free)
    && s.settled == [] && s.bodies == 0
    && forall t :: 0 <= t < |s.pc| ==> s.pc[t] == Out
  }

  /** An owner or a waiter calls; or the owner installs a wait callback. */
  ghost predicate CallStep(g: Shared, p: PC, g': Shared, p': PC) {
    && p == Out
    && (|| (g' == g && p'.WaitLock?)
        || (g' == g && !g.task && (p'.SetLock? || p' == DropLock))
        || (g' == g && g.task && (p' == RunLock || p' == QuitLock))
        || (g' == g.(callback := true) && p' == Out))
  }

  ghost predicate OwnerStep(g: Shared, p: PC, t: Tid, g': Shared, p': PC) {
    match p
    case SetLock(r) => g.mtx == Free && g' == g.(mtx := By(t)) && p' == SetTest(r)
    case SetTest(r) => g' == g && p' == if g.done then Unlock(AlreadySatisfied) else Store(r, Setter)
    case DropLock => g.mtx == Free && g' == g.(mtx := By(t)) && p' == DropTest
    case DropTest => g' == g && p' == if g.done then Unlock(FoundDone) else Store(BROKEN, Dropper)
    case QuitLock => g.mtx == Free && g' == g.(mtx := By(t)) && p' == QuitTest
    case QuitTest => g' == g && p' == if g.started then Unlock(FoundStarted) else QuitMark
    case QuitMark => g' == g.(started := true) && p' == Store(BROKEN, Quitter)
    case _ => false
  }

  /** Running the task; what the body returns or throws is arbitrary. */
  ghost predicate RunStep(g: Shared, p: PC, t: Tid, g': Shared, p': PC) {
    match p
    case RunLock => g.mtx == Free && g' == g.(mtx := By(t)) && p' == RunTest
    case RunTest => g' == g && p' == if g.started then Unlock(AlreadyStarted) else RunMark
    case RunMark => g' == g.(started := true) && p' == RunUnlock
    case RunUnlock => g' == g.(mtx := Free) && p' == Body
    case Body => g' == g && p'.FinLock? && (p'.r.Failed? ==> p'.r.e.Some?)
    case FinLock(r) => g.mtx == Free && g' == g.(mtx := By(t)) && p' == Store(r, Runner)
    case _ => false
  }

  function Written(g: Shared, r: Result): Shared {
    match r
    case Got(v) => g.(result := Some(v))
    case Failed(e) => g.(exception := e)
  }

  ghost predicate FinishStep(g: Shared, p: PC, g': Shared, p': PC) {
    match p
    case Store(r, who) => g' == Written(g, r) && p' == Done(who)
    case Done(who) => g' == g.(done := true) && p' == Notify(who)
    case Unlock(reply) => g' == g.(mtx := Free) && p' == Out
    case _ => false
  }

  /** What get returns or throws: an exception if there is one, else the value. */
  function Outcome(g: Shared): Result {
    if g.exception.Some? then Failed(g.exception)
    else if g.result.Some? then Got(g.result.value)
    else Failed(None)
  }

  ghost predicate WaitStep(g: Shared, p: PC, t: Tid, g': Shared, p': PC) {
    match p
    case WaitLock(d) => g.mtx == Free && g' == g.(mtx := By(t)) && p' == WaitCheck(d)
    case WaitCheck(d) => g' == g && p' == if g.callback && !g.done then WaitRelease(d) else WaitTest(d, false)
    case WaitRelease(d) => g' == g.(mtx := Free) && p' == Callback(d)
    case Callback(d) => g' == g && (p' == WaitRelock(d, true) || p' == WaitRelock(d, false))
    case WaitRelock(d, threw) =>
      && g.mtx == Free && g' == g.(mtx := By(t))
      && p' == if threw then Unlock(CallbackThrew) else WaitTest(d, false)
    case WaitTest(d, expired) =>
      if g.done then g' == g && p' == WaitLeave
      else if expired then g' == g && p' == Unlock(TimedOut)
      else g' == g.(mtx := Free) && p' == Asleep(d)
    case Asleep(d) => g' == g && (p' == Woken(d, false) || (d && p' == Woken(d, true)))
    case Woken(d, expired) => g.mtx == Free && g' == g.(mtx := By(t)) && p' == WaitTest(d, expired)
    case WaitLeave => g' == g && p' == Unlock(Ready(Outcome(g)))
    case _ => false
  }

  ghost predicate Act(g: Shared, p: PC, t: Tid, g': Shared, p': PC) {
    || CallStep(g, p, g', p')
    || OwnerStep(g, p, t, g', p')
    || RunStep(g, p, t, g', p')
    || FinishStep(g, p, g', p')
    || WaitStep(g, p, t, g', p')
  }

  function Recorded(settled: seq<Entry>, p: PC): seq<Entry> {
    if p.Store? then settled + [Entry(p.r, p.who)] else settled
  }

  ghost predicate ActStep(s: State, t: Tid, s': State) {
    && t < |s.pc| == |s'.pc| && s'.pc == s.pc[t := s'.pc[t]]
    && Act(s.g, s.pc[t], t, s'.g, s'.pc[t])
    && s'.settled == Recorded(s.settled, s.pc[t])
    && s'.bodies == s.bodies + B(s.pc[t].RunUnlock?)
  }

  function Awake(p: PC): PC { if p.Asleep? then Woken(p.timed, false) else p }

  ghost predicate NotifyStep(s: State, t: Tid, s': State) {
    && t < |s.pc| == |s'.pc|
    && s'.g == s.g && s'.settled == s.settled && s'.bodies == s.bodies
    && s.pc[t].Notify? && s'.pc[t] == Unlock(Finished(s.pc[t].who))
    && forall u :: 0 <= u < |s.pc| && u != t ==> s'.pc[u] == Awake(s.pc[u])
  }

  ghost predicate Next(s: State, s': State) {
    exists t: Tid :: ActStep(s, t, s') || NotifyStep(s, t, s')
  }

  // The invariant -------------------------------------------------------------------------

  predicate Inside(p: PC) {
    || p.SetTest? || p.DropTest? || p.RunTest? || p.RunMark? || p.RunUnlock? || p.QuitTest? || p.QuitMark?
    || p.Store? || p.Done? || p.Notify? || p.WaitCheck? || p.WaitRelease? || p.WaitTest? || p.WaitLeave? || p.Unlock?
  }

  /** Promises are set or dropped, tasks are run or dropped. */
  predicate Fits(task: bool, p: PC) {
    && (p.SetLock? || p.SetTest? || p.DropLock? || p.DropTest? ==> !task)
    && (p.RunLock? || p.RunTest? || p.RunMark? || p.RunUnlock? || p.Body? || p.FinLock? ==> task)
    && (p.FinLock? ==> p.r != Failed(None))
    && (p.QuitLock? || p.QuitTest? || p.QuitMark? ==> task)
    && (p.Store? || p.Done? || p.Notify? ==> task == (p.who.Runner? || p.who.Quitter?))
  }

  /** Has started the task, or claimed it for its end, and has not stored a result yet. */
  predicate Pending(p: PC) {
    p.RunUnlock? || p.Body? || p.FinLock? || (p.Store? && (p.who.Runner? || p.who.Quitter?))
  }

  /** Has claimed the task, and not entered its body. */
  predicate Claimed(p: PC) { p.RunUnlock? || (p.Store? && p.who.Quitter?) }

  function QuitBefore(settled: seq<Entry>): nat { B(settled != [] && settled[0].who.Quitter?) }

  /** One start, one result, at most one body. */
  ghost predicate Tickets(s: State) {
    && Count(s.pc, Pending) + |s.settled| == B(s.g.started)
    && s.bodies + Count(s.pc, Claimed) + QuitBefore(s.settled) == B(s.g.started)
  }

  /** Owners who are destroyed break the promise, and a task body that throws throws something. */
  predicate Fair(r: Result, who: Who) {
    && (who.Dropper? || who.Quitter? ==> r == BROKEN)
    && (who.Runner? ==> r != Failed(None))
  }

  /** result and exception say what was stored. */
  ghost predicate Fields(g: Shared, settled: seq<Entry>) {
    && |settled| <= 1
    && (settled == [] ==> g.result == None && g.exception == None)
    && (settled != [] ==>
          && g.result == (if settled[0].r.Got? then Some(settled[0].r.v) else None)
          && g.exception == (if settled[0].r.Failed? then settled[0].r.e else None)
          && Fair(settled[0].r, settled[0].who))
  }

  /** What the thread in the critical section, at q, has established. */
  ghost predicate Local(g: Shared, settled: seq<Entry>, q: PC) {
    && (if q.Done? then !g.done && settled != [] else g.done <==> settled != [])
    && (q.Store? ==> !g.done && Fair(q.r, q.who))
    && (q.Done? || q.Notify? ==> settled != [] && settled[0].who == q.who)
    && (q.Notify? || q.WaitLeave? ==> g.done)
    && (q.RunMark? || q.QuitMark? ==> !g.started)
    && (q.Unlock? ==> Replied(g, settled, q.reply))
  }

  ghost predicate Replied(g: Shared, settled: seq<Entry>, reply: Reply) {
    match reply
    case Finished(who) => g.done && settled != [] && settled[0].who == who
    case AlreadySatisfied => g.done
    case FoundDone => g.done
    case Ready(r) => g.done && settled != [] && r == settled[0].r
    case AlreadyStarted => g.started
    case FoundStarted => g.started
    case TimedOut => !g.done
    case CallbackThrew => true
  }

  /** Nobody sleeps through the end, but for the moment before the notification. */
  ghost predicate Resting(g: Shared, pc: seq<PC>, q: PC) {
    g.done && !q.Notify? ==> forall t :: 0 <= t < |pc| ==> !pc[t].Asleep?
  }

  function AtLock(s: State): PC { Holder(s.pc, s.g.mtx, Out) }

  ghost predicate Inv(s: State) {
    && Guards(s.pc, s.g.mtx, Inside)
    && (forall t :: 0 <= t < |s.pc| ==> Fits(s.g.task, s.pc[t]))
    && (if s.g.task then Tickets(s) else !s.g.started && s.bodies == 0)
    && Fields(s.g, s.settled)
    && Local(s.g, s.settled, AtLock(s))
    && Resting(s.g, s.pc, AtLock(s))
  }

  lemma InitInv(s: State)
    requires Init(s)
    ensures Inv(s)
  {
    CountZero(s.pc, Pending);
    CountZero(s.pc, Claimed);
  }

  function Then(q: PC, p: PC, p': PC): PC { HolderAfter(q, p, p', Inside, Out) }

  /** What an access at p does to the lock, the tickets and the fields it does not name. */
  ghost predicate Shifts(g: Shared, p: PC, t: Tid, g': Shared, p': PC) {
    && LockMoves(g.mtx, p, t, g'.mtx, p', Inside)
    && g'.task == g.task && Fits(g.task, p')
    && B(Pending(p')) + B(p.Store? && g.task) + B(g.started) == B(Pending(p)) + B(g'.started)
    && B(Claimed(p')) + B(p.RunUnlock?) + B(p.Store? && p.who.Quitter?) + B(g.started) == B(Claimed(p)) + B(g'.started)
    && (!g.task ==> g'.started == g.started && !p.RunUnlock?)
    && (p'.Asleep? ==> !g'.done) && g'.done == (g.done || p.Done?) && (p.Done? ==> p'.Notify?)
  }

  /** The result and the step of the protocol. */
  ghost predicate Settles(g: Shared, settled: seq<Entry>, p: PC, g': Shared, p': PC, q: PC) {
    Fields(g', Recorded(settled, p)) && Local(g', Recorded(settled, p), Then(q, p, p'))
  }

  /** The thread at p is where the lock says, q being its owner, and a task that is about to
      store its result has none. */
  ghost predicate Poised(g: Shared, settled: seq<Entry>, p: PC, q: PC) {
    && Fields(g, settled) && Local(g, settled, q) && Fits(g.task, p)
    && (Inside(p) ==> q == p) && (g.mtx == Free ==> q == Out)
    && (p.FinLock? || p.QuitMark? ==> settled == [])
  }

  lemma CallShifts(g: Shared, settled: seq<Entry>, p: PC, t: Tid, g': Shared, p': PC, q: PC)
    requires Poised(g, settled, p, q) && CallStep(g, p, g', p')
    ensures Shifts(g, p, t, g', p')
  {
  }

  lemma CallSettles(g: Shared, settled: seq<Entry>, p: PC, t: Tid, g': Shared, p': PC, q: PC)
    requires Poised(g, settled, p, q) && CallStep(g, p, g', p')
    ensures Settles(g, settled, p, g', p', q)
  {
    assert p == Out && !Inside(p') && Recorded(settled, p) == settled;
    assert Then(q, p, p') == q;
  }

  lemma OwnerKeeps(g: Shared, settled: seq<Entry>, p: PC, t: Tid, g': Shared, p': PC, q: PC)
    requires Poised(g, settled, p, q) && OwnerStep(g, p, t, g', p')
    ensures Shifts(g, p, t, g', p') && Settles(g, settled, p, g', p', q)
  {
  }

  lemma RunShifts(g: Shared, p: PC, t: Tid, g': Shared, p': PC)
    requires Fits(g.task, p) && (p.RunMark? ==> !g.started) && RunStep(g, p, t, g', p')
    ensures Shifts(g, p, t, g', p')
  {
  }

  lemma RunSettles(g: Shared, settled: seq<Entry>, p: PC, t: Tid, g': Shared, p': PC, q: PC)
    requires Poised(g, settled, p, q) && RunStep(g, p, t, g', p')
    ensures Settles(g, settled, p, g', p', q)
  {
  }

  lemma FinishKeeps(g: Shared, settled: seq<Entry>, p: PC, t: Tid, g': Shared, p': PC, q: PC)
    requires Poised(g, settled, p, q) && FinishStep(g, p, g', p')
    ensures Shifts(g, p, t, g', p') && Settles(g, settled, p, g', p', q)
  {
  }

  lemma WaitShifts(g: Shared, p: PC, t: Tid, g': Shared, p': PC)
    requires Fits(g.task, p) && WaitStep(g, p, t, g', p')
    ensures Shifts(g, p, t, g', p')
  {
  }

  /** A waiter leaves everything alone but the lock. */
  lemma WaitFrame(g: Shared, settled: seq<Entry>, p: PC, t: Tid, g': Shared, p': PC, q: PC)
    requires Poised(g, settled, p, q) && WaitStep(g, p, t, g', p')
    ensures g' == g.(mtx := g'.mtx) && Recorded(settled, p) == settled
    ensures Then(q, p, p') == if Inside(p') then p' else if Inside(p) then Out else q
  {
  }

  lemma WaitSettles(g: Shared, settled: seq<Entry>, p: PC, t: Tid, g': Shared, p': PC, q: PC)
    requires Poised(g, settled, p, q) && WaitStep(g, p, t, g', p')
    ensures Settles(g, settled, p, g', p', q)
  {
    WaitFrame(g, settled, p, t, g', p', q);
    assert Fields(g', settled);
  }

  lemma ActKeeps(g: Shared, settled: seq<Entry>, p: PC, t: Tid, g': Shared, p': PC, q: PC)
    requires Poised(g, settled, p, q) && Act(g, p, t, g', p')
    ensures Shifts(g, p, t, g', p') && Settles(g, settled, p, g', p', q)
  {
    if CallStep(g, p, g', p') {
      CallShifts(g, settled, p, t, g', p', q);
      CallSettles(g, settled, p, t, g', p', q);
    } else if OwnerStep(g, p, t, g', p') {
      OwnerKeeps(g, settled, p, t, g', p', q);
    } else if RunStep(g, p, t, g', p') {
      RunShifts(g, p, t, g', p');
      RunSettles(g, settled, p, t, g', p', q);
    } else if FinishStep(g, p, g', p') {
      FinishKeeps(g, settled, p, t, g', p', q);
    } else {
      WaitShifts(g, p, t, g', p');
      WaitSettles(g, settled, p, t, g', p', q);
    }
  }

  lemma InvPoised(s: State, t: Tid)
    requires Inv(s) && t < |s.pc|
    ensures Poised(s.g, s.settled, s.pc[t], AtLock(s))
  {
    assert Fits(s.g.task, s.pc[t]);
    if s.pc[t].FinLock? {
      CountHas(s.pc, t, Pending);
    }
  }

  lemma ActTickets(s: State, t: Tid, s': State)
    requires Inv(s) && ActStep(s, t, s') && Shifts(s.g, s.pc[t], t, s'.g, s'.pc[t])
    requires s.pc[t].Store? ==> s.settled == [] && (s.g.task ==> !s.pc[t].who.Setter? && !s.pc[t].who.Dropper?)
    ensures if s'.g.task then Tickets(s') else !s'.g.started && s'.bodies == 0
  {
    CountUpdate(s.pc, t, s'.pc[t], Pending);
    CountUpdate(s.pc, t, s'.pc[t], Claimed);
  }

  lemma ActInv(s: State, t: Tid, s': State)
    requires Inv(s) && ActStep(s, t, s')
    ensures Inv(s')
  {
    InvPoised(s, t);
    ActKeeps(s.g, s.settled, s.pc[t], t, s'.g, s'.pc[t], AtLock(s));
    GuardsMove(s.pc, t, s'.pc, s.g.mtx, s'.g.mtx, Inside, Out);
    ActTickets(s, t, s');
    ActResting(s, t, s');
  }

  lemma ActResting(s: State, t: Tid, s': State)
    requires Inv(s) && ActStep(s, t, s') && Shifts(s.g, s.pc[t], t, s'.g, s'.pc[t])
    requires Poised(s.g, s.settled, s.pc[t], AtLock(s)) && AtLock(s') == Then(AtLock(s), s.pc[t], s'.pc[t])
    ensures Resting(s'.g, s'.pc, AtLock(s'))
  {
  }

  lemma NotifyCounts(s: State, t: Tid, s': State)
    requires NotifyStep(s, t, s') && (s.g.task ==> Tickets(s))
    ensures s'.g.task ==> Tickets(s')
  {
    CountSame(s.pc, s'.pc, Pending);
    CountSame(s.pc, s'.pc, Claimed);
  }

  lemma NotifyFits(s: State, t: Tid, s': State)
    requires NotifyStep(s, t, s') && forall u :: 0 <= u < |s.pc| ==> Fits(s.g.task, s.pc[u])
    ensures forall u :: 0 <= u < |s'.pc| ==> Fits(s'.g.task, s'.pc[u]) && !s'.pc[u].Asleep?
  {
    forall u | 0 <= u < |s'.pc| ensures Fits(s'.g.task, s'.pc[u]) && !s'.pc[u].Asleep? {
      assert Fits(s.g.task, s.pc[u]);
    }
  }

  lemma NotifyTickets(s: State, t: Tid, s': State)
    requires Inv(s) && NotifyStep(s, t, s')
    ensures if s'.g.task then Tickets(s') else !s'.g.started && s'.bodies == 0
    ensures forall u :: 0 <= u < |s'.pc| ==> Fits(s'.g.task, s'.pc[u]) && !s'.pc[u].Asleep?
  {
    NotifyCounts(s, t, s');
    NotifyFits(s, t, s');
  }

  lemma NotifyLock(s: State, t: Tid, s': State)
    requires Inv(s) && NotifyStep(s, t, s')
    ensures Guards(s'.pc, s'.g.mtx, Inside) && AtLock(s') == s'.pc[t] && AtLock(s) == s.pc[t]
  {
    GuardsMove(s.pc, t, s'.pc, s.g.mtx, s'.g.mtx, Inside, Out);
  }

  lemma NotifyInv(s: State, t: Tid, s': State)
    requires Inv(s) && NotifyStep(s, t, s')
    ensures Inv(s')
  {
    NotifyTickets(s, t, s');
    NotifyLock(s, t, s');
  }

  lemma NextInv(s: State, s': State)
    requires Inv(s) && Next(s, s')
    ensures Inv(s')
  {
    var t: Tid :| ActStep(s, t, s') || NotifyStep(s, t, s');
    if ActStep(s, t, s') {
      ActInv(s, t, s');
    } else {
      NotifyInv(s, t, s');
    }
  }

  ghost predicate Run(tr: seq<State>) { IsRun(Init, Next, tr) }

  lemma RunInv(tr: seq<State>, i: nat)
    requires Run(tr) && i < |tr|
    ensures Inv(tr[i])
  {
    forall s | Init(s) ensures Inv(s) { InitInv(s); }
    forall s, s' | Inv(s) && Next(s, s') ensures Inv(s') { NextInv(s, s'); }
    Always(Init, Next, Inv, tr, i);
  }

  // What every run guarantees -------------------------------------------------------------

  /** A result is stored at most once and the task body entered at most once; the future is
      ready only with that one result, which is in its fields. */
  lemma SingleAssignment(tr: seq<State>, i: nat)
    requires Run(tr) && i < |tr|
    ensures |tr[i].settled| <= 1 && tr[i].bodies <= 1
    ensures tr[i].g.done ==> |tr[i].settled| == 1 && Outcome(tr[i].g) == tr[i].settled[0].r
  {
    RunInv(tr, i);
  }

  predicate Settled(s: State, g: Shared, settled: seq<Entry>, bodies: nat) {
    s.settled == settled && s.g.result == g.result && s.g.exception == g.exception && (g.done ==> s.g.done)
    && s.bodies == bodies
  }

  lemma SettledKept(s: State, s': State, g: Shared, settled: seq<Entry>, bodies: nat)
    requires Inv(s) && Next(s, s') && settled != [] && (g.task ==> s.g.task) && Settled(s, g, settled, bodies)
    ensures Settled(s', g, settled, bodies)
  {
    NextInv(s, s');
    var t: Tid :| ActStep(s, t, s') || NotifyStep(s, t, s');
    if ActStep(s, t, s') {
      InvPoised(s, t);
      ActKeeps(s.g, s.settled, s.pc[t], t, s'.g, s'.pc[t], AtLock(s));
      if s.pc[t].RunUnlock? { CountHas(s.pc, t, Pending); }
    }
  }

  /** Once stored, the result never changes, the future never becomes unready again, and the
      task body is not entered any more. */
  lemma SettledForever(tr: seq<State>, i: nat, j: nat)
    requires Run(tr) && i <= j < |tr| && tr[i].settled != []
    ensures tr[j].settled == tr[i].settled && tr[j].bodies == tr[i].bodies && (tr[i].g.done ==> tr[j].g.done)
    ensures tr[j].g.result == tr[i].g.result && tr[j].g.exception == tr[i].g.exception
  {
    var a := tr[i];
    var same := (s: State) => s.g.task == a.g.task && Settled(s, a.g, a.settled, a.bodies);
    forall s | Init(s) ensures Inv(s) { InitInv(s); }
    forall s, s' | Inv(s) && Next(s, s') ensures Inv(s') { NextInv(s, s'); }
    forall s, s' | Inv(s) && Next(s, s') && same(s) ensures same(s') {
      SettledKept(s, s', a.g, a.settled, a.bodies);
      TaskKept(s, s');
    }
    Forever(Init, Next, Inv, same, tr, i, j);
  }

  lemma TaskKept(s: State, s': State)
    requires Inv(s) && Next(s, s')
    ensures s'.g.task == s.g.task
  {
    var t: Tid :| ActStep(s, t, s') || NotifyStep(s, t, s');
    if ActStep(s, t, s') {
      InvPoised(s, t);
      ActKeeps(s.g, s.settled, s.pc[t], t, s'.g, s'.pc[t], AtLock(s));
    }
  }

  /** A ready future holds exactly one of a value and an exception, if and only if it was not
      finished by set_exception with an empty exception pointer. */
  lemma ValueOrException(tr: seq<State>, i: nat)
    requires Run(tr) && i < |tr| && tr[i].g.done
    ensures |tr[i].settled| == 1
    ensures (tr[i].g.result.Some? != tr[i].g.exception.Some?) <==> tr[i].settled[0] != Entry(Failed(None), Setter)
  {
    RunInv(tr, i);
  }

  function Lone(done: bool, locked: bool, settled: seq<Entry>, p: PC): State {
    State(Shared(false, false, done, false, None, None, if locked then By(0) else Free), settled, 0, [p])
  }

  lemma LoneAct(s: State, s': State)
    requires |s.pc| == 1 == |s'.pc| && Act(s.g, s.pc[0], 0, s'.g, s'.pc[0])
    requires s'.settled == Recorded(s.settled, s.pc[0]) && s'.bodies == s.bodies && !s.pc[0].RunUnlock?
    ensures Next(s, s')
  {
    assert ActStep(s, 0, s');
  }

  lemma LoneNotify(s: State, s': State)
    requires |s.pc| == 1 == |s'.pc| && s'.g == s.g && s'.settled == s.settled && s'.bodies == s.bodies
    requires s.pc[0] == Notify(Setter) && s'.pc[0] == Unlock(Finished(Setter))
    ensures Next(s, s')
  {
    assert NotifyStep(s, 0, s');
  }

  const EMPTY := Failed(None)

  const ONLY_EMPTY := [Entry(EMPTY, Setter)]

  lemma LoneBegin()
    ensures Next(Lone(false, false, [], Out), Lone(false, false, [], SetLock(EMPTY)))
    ensures Next(Lone(false, false, [], SetLock(EMPTY)), Lone(false, true, [], SetTest(EMPTY)))
    ensures Next(Lone(false, true, [], SetTest(EMPTY)), Lone(false, true, [], Store(EMPTY, Setter)))
  {
    LoneAct(Lone(false, false, [], Out), Lone(false, false, [], SetLock(EMPTY)));
    LoneAct(Lone(false, false, [], SetLock(EMPTY)), Lone(false, true, [], SetTest(EMPTY)));
    LoneAct(Lone(false, true, [], SetTest(EMPTY)), Lone(false, true, [], Store(EMPTY, Setter)));
  }

  lemma LoneEnd()
    ensures Next(Lone(false, true, [], Store(EMPTY, Setter)), Lone(false, true, ONLY_EMPTY, Done(Setter)))
    ensures Next(Lone(false, true, ONLY_EMPTY, Done(Setter)), Lone(true, true, ONLY_EMPTY, Notify(Setter)))
    ensures Next(Lone(true, true, ONLY_EMPTY, Notify(Setter)), Lone(true, true, ONLY_EMPTY, Unlock(Finished(Setter))))
  {
    LoneAct(Lone(false, true, [], Store(EMPTY, Setter)), Lone(false, true, ONLY_EMPTY, Done(Setter)));
    LoneAct(Lone(false, true, ONLY_EMPTY, Done(Setter)), Lone(true, true, ONLY_EMPTY, Notify(Setter)));
    LoneNotify(Lone(true, true, ONLY_EMPTY, Notify(Setter)), Lone(true, true, ONLY_EMPTY, Unlock(Finished(Setter))));
  }

  lemma EmptyStored() returns (tr: seq<State>)
    ensures Reaches(Init, Next, tr, Lone(false, true, [], Store(EMPTY, Setter)))
  {
    var s0, s1 := Lone(false, false, [], Out), Lone(false, false, [], SetLock(EMPTY));
    var s2 := Lone(false, true, [], SetTest(EMPTY));
    LoneBegin();
    tr := Extend(Init, Next, [s0], s0, s1);
    tr := Extend(Init, Next, tr, s1, s2);
    tr := Extend(Init, Next, tr, s2, Lone(false, true, [], Store(EMPTY, Setter)));
  }

  /** set_exception with an empty pointer leaves a ready future with neither a value nor an
      exception. */
  lemma EmptyExceptionRun() returns (tr: seq<State>)
    ensures Run(tr)
    ensures var g := tr[|tr| - 1].g; g.done && g.result == None && g.exception == None
  {
    var s4, s5 := Lone(false, true, ONLY_EMPTY, Done(Setter)), Lone(true, true, ONLY_EMPTY, Notify(Setter));
    LoneEnd();
    tr := EmptyStored();
    tr := Extend(Init, Next, tr, Lone(false, true, [], Store(EMPTY, Setter)), s4);
    tr := Extend(Init, Next, tr, s4, s5);
    tr := Extend(Init, Next, tr, s5, Lone(true, true, ONLY_EMPTY, Unlock(Finished(Setter))));
  }

  /** What get returns or throws is what was stored, so all callers get the same. */
  lemma GetsAgree(tr: seq<State>, i: nat, j: nat, t: Tid, u: Tid)
    requires Run(tr) && i <= j < |tr| && t < |tr[i].pc| && u < |tr[j].pc|
    requires tr[i].pc[t].Unlock? && tr[i].pc[t].reply.Ready? && tr[j].pc[u].Unlock? && tr[j].pc[u].reply.Ready?
    ensures tr[i].g.done && |tr[i].settled| == 1
    ensures tr[i].pc[t].reply.r == tr[j].pc[u].reply.r == tr[i].settled[0].r
  {
    RunInv(tr, i);
    RunInv(tr, j);
    SettledForever(tr, i, j);
    assert AtLock(tr[i]) == tr[i].pc[t] && AtLock(tr[j]) == tr[j].pc[u];
  }

  /** An owner that is destroyed before a result was set, or before the task was started,
      leaves the future ready with broken_promise, and such a task never enters its body. */
  lemma BrokenPromiseLeft(tr: seq<State>, i: nat, t: Tid)
    requires Run(tr) && i < |tr| && t < |tr[i].pc|
    requires tr[i].pc[t] == Unlock(Finished(Dropper)) || tr[i].pc[t] == Unlock(Finished(Quitter))
    ensures tr[i].g.done && tr[i].g.exception == Some(BrokenPromise) && tr[i].g.result == None
    ensures tr[i].pc[t].reply.who.Quitter? ==> tr[i].bodies == 0
  {
    RunInv(tr, i);
    assert AtLock(tr[i]) == tr[i].pc[t];
    assert QuitBefore(tr[i].settled) == B(tr[i].pc[t].reply.who.Quitter?);
  }

  /** However ~promise returns, the future is ready. */
  lemma DroppedIsReady(tr: seq<State>, i: nat, t: Tid)
    requires Run(tr) && i < |tr| && t < |tr[i].pc|
    requires tr[i].pc[t] == Unlock(Finished(Dropper)) || tr[i].pc[t] == Unlock(FoundDone)
    ensures tr[i].g.done
  {
    RunInv(tr, i);
    assert AtLock(tr[i]) == tr[i].pc[t];
  }

  /** Once the future is ready and the notification has gone out, no waiter sleeps. */
  lemma NoWaiterLeft(tr: seq<State>, i: nat, t: Tid)
    requires Run(tr) && i < |tr| && t < |tr[i].pc| && tr[i].g.done && tr[i].pc[t].Asleep?
    ensures exists u :: 0 <= u < |tr[i].pc| && tr[i].pc[u].Notify?
  {
    RunInv(tr, i);
    var q := AtLock(tr[i]);
    assert q.Notify?;
  }

  /** A task that was started and has no result yet is still in the hands of a thread; one
      that has a result from its body entered the body exactly once. */
  lemma StartedIsServed(tr: seq<State>, i: nat)
    requires Run(tr) && i < |tr| && tr[i].g.task && tr[i].g.started
    ensures tr[i].settled == [] ==> exists t :: 0 <= t < |tr[i].pc| && Pending(tr[i].pc[t])
    ensures tr[i].settled != [] && tr[i].settled[0].who.Runner? ==> tr[i].bodies == 1
  {
    var s := tr[i];
    RunInv(tr, i);
    if s.settled == [] {
      var t := CountWitness(s.pc, Pending);
    } else {
      CountNone(s.pc, Pending);
      CountZero(s.pc, Claimed);
    }
  }
}
