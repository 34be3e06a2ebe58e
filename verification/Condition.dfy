/** The spin condition variable: wait and timed_wait (condition.hpp) against
    notify_one and notify_all (condition.cpp), for any number of threads.

    Every step is one access to an atomic or one lock operation. notify_
    returns with enter_mtx_ still locked: the lock is a baton that travels
    through cmd_ to a waiter, and the waiter unlocks it. */
module Condition {
  import opened Counting
  import opened Runs

  datatype Command = SLEEPING | NOTIFY_ONE | NOTIFY_ALL

  /** Where a thread stands. `timed` tells timed_wait from wait, `held` tells
      whether a notifier owns the caller's mutex, `ok` is what the wait returns. */
  datatype PC =
    | Out                                 // outside, without the caller's mutex
    | Held                                // outside, owning the caller's mutex
    | Enter(timed: bool)                  // lock enter_mtx_
    | Register(timed: bool)               // waiters_.fetch_add
    | GiveUp(timed: bool)                 // lt.unlock
    | LeaveEntry(timed: bool)             // unlock enter_mtx_
    | Spin(timed: bool)                   // cmd_.load
    | Expired                             // time is over: enter_mtx_.try_lock
    | Check(timed: bool)                  // lock check_mtx_
    | Consume(timed: bool)                // compare-exchange NOTIFY_ONE -> SLEEPING
    | Retry(timed: bool)                  // saw SLEEPING: unlock check_mtx_, spin again
    | CountOne                            // waiters_.fetch_sub after NOTIFY_ONE
    | CountAll                            // waiters_.fetch_sub after NOTIFY_ALL
    | Reset                               // compare-exchange NOTIFY_ALL -> SLEEPING
    | Leave(unlock: bool)                 // unlock check_mtx_
    | CountExpired                        // waiters_.fetch_sub after a time-out
    | HandBack(ok: bool)                  // unlock enter_mtx_
    | Relock(ok: bool)                    // lt.lock
    | Notify(cmd: Command, held: bool)    // lock enter_mtx_
    | Load(cmd: Command, held: bool)      // waiters_.load
    | Skip(held: bool)                    // nobody waits: unlock enter_mtx_
    | Publish(cmd: Command, held: bool)   // compare-exchange SLEEPING -> cmd

  type Tid = nat

  /** One published command: who was waiting when it was published, and who it released so far. */
  datatype Notice = Notice(cmd: Command, waiting: set<Tid>, released: set<Tid>)

  /** The shared variables. */
  datatype Shared = Shared(cmd: Command, waiters: int, enter: bool, check: bool, caller: bool)

  /** The history of a run: all published commands, and how many waits have
      begun, have returned after a notification, and have timed out. */
  datatype History = History(log: seq<Notice>, begun: nat, woken: nat, expired: nat)

  datatype State = State(g: Shared, pc: seq<PC>, h: History)

  const FRESH := Shared(SLEEPING, 0, false, false, false)

  ghost predicate Init(s: State) {
    s.g == FRESH && s.h == History([], 0, 0, 0) && forall t :: 0 <= t < |s.pc| ==> s.pc[t] == Out
  }

  function Home(held: bool): PC { if held then Held else Out }

  /** The last published command has released t. */
  function Release(log: seq<Notice>, t: Tid): seq<Notice> {
    if log == [] then log
    else
      var n := log[|log| - 1];
      log[|log| - 1 := n.(released := n.released + {t})]
  }

  /** The calls a thread may start, and the caller's own use of its mutex. */
  ghost predicate CallStep(g: Shared, p: PC, g': Shared, p': PC) {
    match p
    case Out =>
      || (!g.caller && p' == Held && g' == g.(caller := true))
      || (p'.Notify? && !p'.held && p'.cmd != SLEEPING && g' == g)
    case Held =>
      || (p' == Out && g' == g.(caller := false))
      || (p'.Enter? && g' == g)
      || (p'.Notify? && p'.held && p'.cmd != SLEEPING && g' == g)
    case _ => false
  }

  /** Entering wait or timed_wait, and spinning on cmd_. */
  ghost predicate EntryStep(g: Shared, p: PC, g': Shared, p': PC) {
    match p
    case Enter(timed) => !g.enter && p' == Register(timed) && g' == g.(enter := true)
    case Register(timed) => p' == GiveUp(timed) && g' == g.(waiters := g.waiters + 1)
    case GiveUp(timed) => p' == LeaveEntry(timed) && g' == g.(caller := false)
    case LeaveEntry(timed) => p' == Spin(timed) && g' == g.(enter := false)
    case Spin(timed) =>
      g' == g && if g.cmd == SLEEPING then p' == p || (timed && p' == Expired) else p' == Check(timed)
    case Expired =>
      if g.enter then p' == Spin(true) && g' == g else p' == CountExpired && g' == g.(enter := true)
    case _ => false
  }

  /** Taking a command under check_mtx_. */
  ghost predicate TakeStep(g: Shared, p: PC, g': Shared, p': PC) {
    match p
    case Check(timed) => !g.check && p' == Consume(timed) && g' == g.(check := true)
    case Consume(timed) =>
      if g.cmd == SLEEPING then p' == Retry(timed) && g' == g
      else if g.cmd == NOTIFY_ONE then p' == CountOne && g' == g.(cmd := SLEEPING)
      else p' == CountAll && g' == g
    case Retry(timed) => p' == Spin(timed) && g' == g.(check := false)
    case CountOne => p' == Leave(true) && g' == g.(waiters := g.waiters - 1)
    case CountAll =>
      && p' == (if g.waiters == 1 then Reset else Leave(false))
      && g' == g.(waiters := g.waiters - 1)
    case Reset => p' == Leave(true) && g' == g.(cmd := if g.cmd == NOTIFY_ALL then SLEEPING else g.cmd)
    case _ => false
  }

  /** Leaving wait or timed_wait. */
  ghost predicate LeaveStep(g: Shared, p: PC, g': Shared, p': PC) {
    match p
    case Leave(unlock) => p' == (if unlock then HandBack(true) else Relock(true)) && g' == g.(check := false)
    case CountExpired => p' == HandBack(false) && g' == g.(waiters := g.waiters - 1)
    case HandBack(ok) => p' == Relock(ok) && g' == g.(enter := false)
    case Relock(ok) => !g.caller && p' == Held && g' == g.(caller := true)
    case _ => false
  }

  /** One access of notify_. */
  ghost predicate NotifyStep(g: Shared, p: PC, g': Shared, p': PC) {
    match p
    case Notify(c, held) => !g.enter && p' == Load(c, held) && g' == g.(enter := true)
    case Load(c, held) => p' == (if g.waiters == 0 then Skip(held) else Publish(c, held)) && g' == g
    case Skip(held) => p' == Home(held) && g' == g.(enter := false)
    case Publish(c, held) =>
      if g.cmd == SLEEPING
      then p' == Home(held) && g' == g.(cmd := c)
      else p' == p && g' == g
    case _ => false
  }

  /** One access by a thread that stands at p. */
  ghost predicate Act(g: Shared, p: PC, g': Shared, p': PC) {
    if p.Out? || p.Held? then CallStep(g, p, g', p')
    else if p.Notify? || p.Load? || p.Skip? || p.Publish? then NotifyStep(g, p, g', p')
    else if p.Enter? || InEntry(p) || p.Spin? || p.Expired? then EntryStep(g, p, g', p')
    else if p.Check? || (InCheck(p) && !p.Leave?) then TakeStep(g, p, g', p')
    else LeaveStep(g, p, g', p')
  }

  /** The access of a thread at p takes its share of the command in flight. */
  predicate Releases(g: Shared, p: PC) {
    (p.Consume? && g.cmd == NOTIFY_ONE) || p.CountAll?
  }

  /** What the history records when thread t, standing at p, makes its access
      while the threads in `waiting` wait. */
  function Record(h: History, g: Shared, p: PC, t: Tid, waiting: set<Tid>): History {
    if Releases(g, p) then h.(log := Release(h.log, t))
    else if p.Publish? && g.cmd == SLEEPING then h.(log := h.log + [Notice(p.cmd, waiting, {})])
    else if p.Register? then h.(begun := h.begun + 1)
    else if p.CountExpired? then h.(expired := h.expired + 1)
    else if p.Relock? && p.ok then h.(woken := h.woken + 1)
    else h
  }

  ghost predicate Step(s: State, t: Tid, s': State)
    requires t < |s.pc|
  {
    && |s'.pc| == |s.pc|
    && s'.pc == s.pc[t := s'.pc[t]]
    && Act(s.g, s.pc[t], s'.g, s'.pc[t])
    && s'.h == Record(s.h, s.g, s.pc[t], t, Waiters(s))
  }

  ghost predicate Next(s: State, s': State) {
    exists t: Tid :: t < |s.pc| && Step(s, t, s')
  }

  // Regions of the protocol -------------------------------------------------

  /** In the entry section of wait or timed_wait. */
  predicate InEntry(p: PC) { p.Register? || p.GiveUp? || p.LeaveEntry? }

  /** Inside notify_, owning enter_mtx_. */
  predicate InNotify(p: PC) { p.Load? || p.Skip? || p.Publish? }

  /** Has consumed a command and still has to unlock enter_mtx_. */
  predicate UnlockPending(p: PC) {
    p.CountOne? || (p.Leave? && p.unlock) || (p.HandBack? && p.ok)
  }

  /** Timed out and won try_lock. */
  predicate TimedWinner(p: PC) { p.CountExpired? || (p.HandBack? && !p.ok) }

  /** Carries the baton itself. */
  predicate Baton(p: PC) { InEntry(p) || InNotify(p) || UnlockPending(p) || TimedWinner(p) }

  /** Has begun to wait; neither released nor timed out yet. */
  predicate Waiting(p: PC) {
    || p.GiveUp? || p.LeaveEntry? || p.Spin? || p.Expired? || p.Check? || p.Consume?
    || p.Retry? || p.CountAll? || p.CountExpired?
  }

  /** Counted in waiters_. */
  predicate Counted(p: PC) { Waiting(p) || p.CountOne? }

  /** Owns check_mtx_. */
  predicate InCheck(p: PC) {
    p.Consume? || p.Retry? || p.CountOne? || p.CountAll? || p.Reset? || p.Leave?
  }

  /** Owns the caller's mutex. */
  predicate OwnsCaller(p: PC) {
    || p.Held? || p.Enter? || p.Register? || p.GiveUp?
    || ((p.Notify? || p.Load? || p.Skip? || p.Publish?) && p.held)
  }

  /** Released by a command; wait has not returned yet. */
  predicate Returning(p: PC) {
    p.CountOne? || p.Reset? || p.Leave? || ((p.HandBack? || p.Relock?) && p.ok)
  }

  ghost function Waiters(s: State): set<Tid> {
    set t: Tid | t < |s.pc| && Waiting(s.pc[t])
  }

  // The invariant -----------------------------------------------------------

  ghost predicate Counts(s: State) {
    && Count(s.pc, Baton) + B(s.g.cmd != SLEEPING) == B(s.g.enter)
    && Count(s.pc, Counted) == s.g.waiters
    && Count(s.pc, InCheck) == B(s.g.check)
    && Count(s.pc, OwnsCaller) == B(s.g.caller)
  }

  /** What a thread at p may rely on. */
  ghost predicate Local(g: Shared, p: PC) {
    && (p.CountAll? ==> g.cmd == NOTIFY_ALL)
    && (p.Reset? ==> g.cmd == NOTIFY_ALL && g.waiters == 0)
    && (p.Publish? ==> g.waiters > 0)
    && (p.Notify? || p.Load? || p.Publish? ==> p.cmd != SLEEPING)
  }

  /** A command in flight finds someone to consume it. */
  ghost predicate Flight(s: State) {
    && (s.g.cmd == NOTIFY_ONE ==> s.g.waiters > 0)
    && (s.g.cmd == NOTIFY_ALL && s.g.waiters == 0 ==> exists t :: 0 <= t < |s.pc| && s.pc[t].Reset?)
  }

  /** A command that has done its work: NOTIFY_ONE released exactly one of those
      who were waiting, NOTIFY_ALL exactly all of them. */
  ghost predicate Complete(n: Notice) {
    match n.cmd
    case SLEEPING => false
    case NOTIFY_ONE => n.released <= n.waiting && |n.released| == 1
    case NOTIFY_ALL => n.released == n.waiting
  }

  /** The last published command, while cmd_ holds cmd and the threads in `waiting` wait. */
  ghost predicate LastInv(n: Notice, cmd: Command, waiting: set<Tid>) {
    match cmd
    case SLEEPING => Complete(n)
    case NOTIFY_ONE => n == Notice(NOTIFY_ONE, waiting, {})
    case NOTIFY_ALL => n.cmd == NOTIFY_ALL && n.released !! waiting && n.waiting == n.released + waiting
  }

  ghost predicate LogInv(log: seq<Notice>, cmd: Command, waiting: set<Tid>) {
    && (forall i :: 0 <= i < |log| - 1 ==> Complete(log[i]))
    && (if log == [] then cmd == SLEEPING else LastInv(log[|log| - 1], cmd, waiting))
  }

  /** How many waits the published commands have released. */
  ghost function Released(log: seq<Notice>): nat {
    if log == [] then 0 else Released(log[..|log| - 1]) + |log[|log| - 1].released|
  }

  ghost predicate Balance(s: State) {
    && s.h.begun == Count(s.pc, Waiting) + Released(s.h.log) + s.h.expired
    && Released(s.h.log) == s.h.woken + Count(s.pc, Returning)
  }

  ghost predicate Inv(s: State) {
    && Counts(s)
    && (forall t :: 0 <= t < |s.pc| ==> Local(s.g, s.pc[t]))
    && Flight(s)
    && LogInv(s.h.log, s.g.cmd, Waiters(s))
    && Balance(s)
  }

  lemma InitInv(s: State)
    requires Init(s)
    ensures Inv(s)
  {
    CountZero(s.pc, Baton);
    CountZero(s.pc, Counted);
    CountZero(s.pc, InCheck);
    CountZero(s.pc, OwnsCaller);
    CountZero(s.pc, Waiting);
    CountZero(s.pc, Returning);
  }

  /** A thread that carries the baton owns enter_mtx_ alone. */
  lemma BatonAlone(s: State, t: Tid)
    requires Counts(s) && t < |s.pc| && Baton(s.pc[t])
    ensures s.g.enter && s.g.cmd == SLEEPING
    ensures forall u :: 0 <= u < |s.pc| && u != t ==> !Baton(s.pc[u])
  {
    CountHas(s.pc, t, Baton);
    CountUnique(s.pc, Baton);
  }

  lemma CheckAlone(s: State, t: Tid)
    requires Counts(s) && t < |s.pc| && InCheck(s.pc[t])
    ensures s.g.check
    ensures forall u :: 0 <= u < |s.pc| && u != t ==> !InCheck(s.pc[u])
  {
    CountHas(s.pc, t, InCheck);
    CountUnique(s.pc, InCheck);
  }

  lemma CountedThreads(s: State)
    requires Counts(s)
    ensures 0 <= s.g.waiters && (s.g.waiters == 0 ==> forall t :: 0 <= t < |s.pc| ==> !Counted(s.pc[t]))
  {
    if s.g.waiters == 0 { CountNone(s.pc, Counted); }
  }

  /** What a thread at p holds is held once, given Counts. */
  ghost predicate Owns(g: Shared, p: PC) {
    && 0 <= g.waiters
    && (g.cmd != SLEEPING ==> g.enter)
    && (Baton(p) ==> g.enter && g.cmd == SLEEPING)
    && (InCheck(p) ==> g.check)
    && (OwnsCaller(p) ==> g.caller)
  }

  /** The baton moves and is never copied, and waiters_ follows the counted threads. */
  ghost predicate BatonMoves(g: Shared, p: PC, g': Shared, p': PC) {
    && B(Baton(p')) - B(Baton(p)) + B(g'.cmd != SLEEPING) - B(g.cmd != SLEEPING) == B(g'.enter) - B(g.enter)
    && B(Counted(p')) - B(Counted(p)) == g'.waiters - g.waiters
  }

  /** So are the two locks that an ordinary owner holds. */
  ghost predicate LocksMove(g: Shared, p: PC, g': Shared, p': PC) {
    && B(InCheck(p')) - B(InCheck(p)) == B(g'.check) - B(g.check)
    && B(OwnsCaller(p')) - B(OwnsCaller(p)) == B(g'.caller) - B(g.caller)
  }

  /** What one access keeps for the thread itself and for the command in flight. */
  ghost predicate Keeps(g: Shared, p: PC, g': Shared, p': PC) {
    && Local(g', p')
    && ((g.cmd == NOTIFY_ONE ==> g.waiters > 0) && g'.cmd == NOTIFY_ONE ==> g'.waiters > 0)
    && (g'.cmd == NOTIFY_ALL && g'.waiters == 0 ==> !p.Reset? && (p'.Reset? || (g.cmd == NOTIFY_ALL && g.waiters == 0)))
  }

  /** How one access moves the command in flight, and how the history follows. */
  ghost predicate Moves(g: Shared, p: PC, g': Shared, p': PC) {
    && B(Waiting(p')) - B(Waiting(p)) + B(Releases(g, p)) + B(p.CountExpired?) == B(p.Register?)
    && B(Returning(p')) - B(Returning(p)) + B(p.Relock? && p.ok) == B(Releases(g, p))
    && g'.cmd == (if p.Publish? then p.cmd else if p.Reset? || (p.Consume?
        && g.cmd == NOTIFY_ONE) then SLEEPING else g.cmd)
    && (p.Publish? ==> g.cmd == SLEEPING)
    && (g.cmd != SLEEPING && !Releases(g, p) ==> Waiting(p) == Waiting(p'))
    && (p.Publish? ==> !Waiting(p'))
  }

  lemma CallBaton(g: Shared, p: PC, g': Shared, p': PC)
    requires CallStep(g, p, g', p') && Local(g, p) && Owns(g, p)
    ensures BatonMoves(g, p, g', p')
  {
  }

  lemma CallLocks(g: Shared, p: PC, g': Shared, p': PC)
    requires CallStep(g, p, g', p') && Local(g, p) && Owns(g, p)
    ensures LocksMove(g, p, g', p')
  {
  }

  lemma CallKeeps(g: Shared, p: PC, g': Shared, p': PC)
    requires CallStep(g, p, g', p') && Local(g, p) && Owns(g, p)
    ensures Keeps(g, p, g', p')
  {
  }

  lemma CallMoves(g: Shared, p: PC, g': Shared, p': PC)
    requires CallStep(g, p, g', p') && Local(g, p) && Owns(g, p)
    ensures Moves(g, p, g', p')
  {
  }

  lemma EntryBaton(g: Shared, p: PC, g': Shared, p': PC)
    requires EntryStep(g, p, g', p') && Local(g, p) && Owns(g, p)
    ensures BatonMoves(g, p, g', p')
  {
  }

  lemma EntryLocks(g: Shared, p: PC, g': Shared, p': PC)
    requires EntryStep(g, p, g', p') && Local(g, p) && Owns(g, p)
    ensures LocksMove(g, p, g', p')
  {
  }

  lemma EntryKeeps(g: Shared, p: PC, g': Shared, p': PC)
    requires EntryStep(g, p, g', p') && Local(g, p) && Owns(g, p)
    ensures Keeps(g, p, g', p')
  {
  }

  lemma EntryMoves(g: Shared, p: PC, g': Shared, p': PC)
    requires EntryStep(g, p, g', p') && Local(g, p) && Owns(g, p)
    ensures Moves(g, p, g', p')
  {
  }

  lemma TakeBaton(g: Shared, p: PC, g': Shared, p': PC)
    requires TakeStep(g, p, g', p') && Local(g, p) && Owns(g, p)
    ensures BatonMoves(g, p, g', p')
  {
  }

  lemma TakeLocks(g: Shared, p: PC, g': Shared, p': PC)
    requires TakeStep(g, p, g', p') && Local(g, p) && Owns(g, p)
    ensures LocksMove(g, p, g', p')
  {
  }

  lemma TakeKeeps(g: Shared, p: PC, g': Shared, p': PC)
    requires TakeStep(g, p, g', p') && Local(g, p) && Owns(g, p)
    ensures Keeps(g, p, g', p')
  {
  }

  lemma TakeMoves(g: Shared, p: PC, g': Shared, p': PC)
    requires TakeStep(g, p, g', p') && Local(g, p) && Owns(g, p)
    ensures Moves(g, p, g', p')
  {
  }

  lemma LeaveBaton(g: Shared, p: PC, g': Shared, p': PC)
    requires LeaveStep(g, p, g', p') && Local(g, p) && Owns(g, p)
    ensures BatonMoves(g, p, g', p')
  {
  }

  lemma LeaveLocks(g: Shared, p: PC, g': Shared, p': PC)
    requires LeaveStep(g, p, g', p') && Local(g, p) && Owns(g, p)
    ensures LocksMove(g, p, g', p')
  {
  }

  lemma LeaveKeeps(g: Shared, p: PC, g': Shared, p': PC)
    requires LeaveStep(g, p, g', p') && Local(g, p) && Owns(g, p)
    ensures Keeps(g, p, g', p')
  {
  }

  lemma LeaveMoves(g: Shared, p: PC, g': Shared, p': PC)
    requires LeaveStep(g, p, g', p') && Local(g, p) && Owns(g, p)
    ensures Moves(g, p, g', p')
  {
  }

  lemma NotifyBaton(g: Shared, p: PC, g': Shared, p': PC)
    requires NotifyStep(g, p, g', p') && Local(g, p) && Owns(g, p)
    ensures BatonMoves(g, p, g', p')
  {
  }

  lemma NotifyLocks(g: Shared, p: PC, g': Shared, p': PC)
    requires NotifyStep(g, p, g', p') && Local(g, p) && Owns(g, p)
    ensures LocksMove(g, p, g', p')
  {
  }

  lemma NotifyKeeps(g: Shared, p: PC, g': Shared, p': PC)
    requires NotifyStep(g, p, g', p') && Local(g, p) && Owns(g, p)
    ensures Keeps(g, p, g', p')
  {
  }

  lemma NotifyMoves(g: Shared, p: PC, g': Shared, p': PC)
    requires NotifyStep(g, p, g', p') && Local(g, p) && Owns(g, p)
    ensures Moves(g, p, g', p')
  {
  }

  lemma ActSound(g: Shared, p: PC, g': Shared, p': PC)
    requires Act(g, p, g', p') && Local(g, p) && Owns(g, p)
    ensures BatonMoves(g, p, g', p') && LocksMove(g, p, g', p') && Keeps(g, p, g', p') && Moves(g, p, g', p')
  {
    if CallStep(g, p, g', p') {
      CallBaton(g, p, g', p');
      CallLocks(g, p, g', p');
      CallKeeps(g, p, g', p');
      CallMoves(g, p, g', p');
    } else if EntryStep(g, p, g', p') {
      EntryBaton(g, p, g', p');
      EntryLocks(g, p, g', p');
      EntryKeeps(g, p, g', p');
      EntryMoves(g, p, g', p');
    } else if NotifyStep(g, p, g', p') {
      NotifyBaton(g, p, g', p');
      NotifyLocks(g, p, g', p');
      NotifyKeeps(g, p, g', p');
      NotifyMoves(g, p, g', p');
    } else if TakeStep(g, p, g', p') {
      TakeBaton(g, p, g', p');
      TakeLocks(g, p, g', p');
      TakeKeeps(g, p, g', p');
      TakeMoves(g, p, g', p');
    } else {
      LeaveBaton(g, p, g', p');
      LeaveLocks(g, p, g', p');
      LeaveKeeps(g, p, g', p');
      LeaveMoves(g, p, g', p');
    }
  }

  lemma StepSound(s: State, t: Tid, s': State)
    requires Inv(s) && t < |s.pc| && Step(s, t, s')
    ensures Owns(s.g, s.pc[t])
    ensures BatonMoves(s.g, s.pc[t], s'.g, s'.pc[t]) && LocksMove(s.g, s.pc[t], s'.g, s'.pc[t])
        && Keeps(s.g, s.pc[t], s'.g, s'.pc[t])
    ensures Moves(s.g, s.pc[t], s'.g, s'.pc[t])
  {
    var p := s.pc[t];
    CountedThreads(s);
    if Baton(p) { BatonAlone(s, t); }
    if InCheck(p) { CheckAlone(s, t); }
    if OwnsCaller(p) { CountHas(s.pc, t, OwnsCaller); }
    ActSound(s.g, p, s'.g, s'.pc[t]);
  }

  /** Only thread t has moved. */
  ghost predicate Moved(s: State, t: Tid, s': State) {
    t < |s.pc| == |s'.pc| && s'.pc == s.pc[t := s'.pc[t]]
  }

  lemma StepCounts(s: State, t: Tid, s': State)
    requires Counts(s) && Moved(s, t, s') && BatonMoves(s.g, s.pc[t], s'.g, s'.pc[t])
        && LocksMove(s.g, s.pc[t], s'.g, s'.pc[t])
    ensures Counts(s')
  {
    CountUpdate(s.pc, t, s'.pc[t], Baton);
    CountUpdate(s.pc, t, s'.pc[t], Counted);
    CountUpdate(s.pc, t, s'.pc[t], InCheck);
    CountUpdate(s.pc, t, s'.pc[t], OwnsCaller);
  }

  /** An access leaves intact what another thread relies on. */
  lemma ActOthers(g: Shared, p: PC, g': Shared, p': PC, q: PC)
    requires Act(g, p, g', p') && Local(g, p) && Local(g, q)
    requires !(Baton(p) && Baton(q)) && !(InCheck(p) && InCheck(q))
    requires Baton(p) || Baton(q) ==> g.cmd == SLEEPING && g.enter
    requires g.waiters == 0 ==> !Counted(p)
    ensures Local(g', q)
  {
  }

  lemma StepOther(s: State, t: Tid, s': State, u: Tid)
    requires Counts(s) && t < |s.pc| && u < |s.pc| && u != t
    requires Local(s.g, s.pc[t]) && Local(s.g, s.pc[u]) && t < |s'.pc| && Act(s.g, s.pc[t], s'.g, s'.pc[t])
    ensures Local(s'.g, s.pc[u])
  {
    CountedThreads(s);
    if Baton(s.pc[t]) { BatonAlone(s, t); }
    if Baton(s.pc[u]) { BatonAlone(s, u); }
    if InCheck(s.pc[t]) { CheckAlone(s, t); }
    ActOthers(s.g, s.pc[t], s'.g, s'.pc[t], s.pc[u]);
  }

  lemma StepLocal(s: State, t: Tid, s': State)
    requires Inv(s) && Moved(s, t, s') && Act(s.g, s.pc[t], s'.g, s'.pc[t]) && Local(s'.g, s'.pc[t])
    ensures forall u :: 0 <= u < |s'.pc| ==> Local(s'.g, s'.pc[u])
  {
    forall u | 0 <= u < |s'.pc| ensures Local(s'.g, s'.pc[u]) {
      if u != t { StepOther(s, t, s', u); }
    }
  }

  lemma StepFlight(s: State, t: Tid, s': State)
    requires Flight(s) && Moved(s, t, s') && Keeps(s.g, s.pc[t], s'.g, s'.pc[t])
    requires s'.g.cmd == NOTIFY_ONE ==> s.g.cmd == NOTIFY_ONE ==> s.g.waiters > 0
    ensures Flight(s')
  {
    if s'.g.cmd == NOTIFY_ALL && s'.g.waiters == 0 && !s'.pc[t].Reset? {
      var r :| 0 <= r < |s.pc| && s.pc[r].Reset?;
      assert s'.pc[r].Reset?;
    }
  }

  /** How a step changes the set of waiting threads. */
  lemma StepWaiters(s: State, t: Tid, s': State)
    requires Moved(s, t, s')
    ensures Waiters(s') == Waiters(s) - {t} + (if Waiting(s'.pc[t]) then {t} else {})
    ensures t in Waiters(s) <==> Waiting(s.pc[t])
  {
  }

  lemma ReleasedUpdate(log: seq<Notice>, t: Tid)
    requires log != [] && t !in log[|log| - 1].released
    ensures Released(Release(log, t)) == Released(log) + 1
  {
    var log' := Release(log, t);
    assert log'[..|log| - 1] == log[..|log| - 1];
    var n := log[|log| - 1];
    assert |n.released + {t}| == |n.released| + 1;
  }

  /** A release is recorded once: the released thread was not among those released before. */
  lemma RecordReleased(h: History, g: Shared, p: PC, t: Tid, w: set<Tid>)
    requires Local(g, p) && LogInv(h.log, g.cmd, w)
    requires t in w <==> Waiting(p)
    ensures Released(Record(h, g, p, t, w).log) == Released(h.log) + B(Releases(g, p))
  {
    if Releases(g, p) {
      ReleasedUpdate(h.log, t);
    } else if p.Publish? && g.cmd == SLEEPING {
      assert (h.log + [Notice(p.cmd, w, {})])[..|h.log|] == h.log;
    }
  }

  /** NOTIFY_ONE is done once it has released one waiting thread. */
  lemma LastOne(n: Notice, t: Tid, w: set<Tid>)
    requires n == Notice(NOTIFY_ONE, w, {}) && t in w
    ensures Complete(n.(released := n.released + {t}))
  {
    assert n.released + {t} == {t};
  }

  /** NOTIFY_ALL moves a thread from the waiting ones to the released ones. */
  lemma LastAll(n: Notice, t: Tid, w: set<Tid>)
    requires n.cmd == NOTIFY_ALL && t in w && LastInv(n, NOTIFY_ALL, w)
    ensures LastInv(n.(released := n.released + {t}), NOTIFY_ALL, w - {t})
  {
    assert n.released + w == (n.released + {t}) + (w - {t});
  }

  /** What becomes of the last published command when one thread makes its access. */
  lemma LastMoves(n: Notice, g: Shared, p: PC, g': Shared, p': PC, t: Tid, w: set<Tid>, w': set<Tid>)
    requires Moves(g, p, g', p') && Local(g, p) && LastInv(n, g.cmd, w) && !p.Publish?
    requires w' == w - {t} + (if Waiting(p') then {t} else {})
    requires t in w <==> Waiting(p)
    requires g.waiters == 0 ==> w == {}
    ensures LastInv(if Releases(g, p) then n.(released := n.released + {t}) else n, g'.cmd, w')
  {
    if p.Consume? && g.cmd == NOTIFY_ONE {
      LastOne(n, t, w);
    } else if p.CountAll? {
      assert w' == w - {t};
      LastAll(n, t, w);
    } else if p.Reset? {
      assert n.waiting == n.released;
    } else if g.cmd != SLEEPING {
      assert w' == w;
    }
  }

  lemma LogAppend(log: seq<Notice>, n: Notice, cmd: Command, w: set<Tid>)
    requires LogInv(log, SLEEPING, w) && LastInv(n, cmd, w)
    ensures LogInv(log + [n], cmd, w)
  {
    var log' := log + [n];
    forall i | 0 <= i < |log'| - 1 ensures Complete(log'[i]) {
      assert log'[i] == log[i];
    }
  }

  lemma LogReplace(log: seq<Notice>, cmd: Command, w: set<Tid>, n': Notice, cmd': Command, w': set<Tid>)
    requires LogInv(log, cmd, w) && log != [] && LastInv(n', cmd', w')
    ensures LogInv(log[|log| - 1 := n'], cmd', w')
  {
  }

  lemma RecordLog(h: History, g: Shared, p: PC, g': Shared, p': PC, t: Tid, w: set<Tid>, w': set<Tid>)
    requires Moves(g, p, g', p') && Local(g, p) && LogInv(h.log, g.cmd, w)
    requires w' == w - {t} + (if Waiting(p') then {t} else {})
    requires t in w <==> Waiting(p)
    requires g.waiters == 0 ==> w == {}
    ensures LogInv(Record(h, g, p, t, w).log, g'.cmd, w')
  {
    if p.Publish? {
      assert w' == w;
      LogAppend(h.log, Notice(p.cmd, w, {}), p.cmd, w);
    } else if h.log != [] {
      var n := h.log[|h.log| - 1];
      LastMoves(n, g, p, g', p', t, w, w');
      LogReplace(h.log, g.cmd, w, if Releases(g, p) then n.(released := n.released + {t}) else n, g'.cmd, w');
      assert h.log[|h.log| - 1 := n] == h.log;
    }
  }

  lemma StepLog(s: State, t: Tid, s': State)
    requires Inv(s) && Moved(s, t, s') && s'.h == Record(s.h, s.g, s.pc[t], t, Waiters(s))
    requires Moves(s.g, s.pc[t], s'.g, s'.pc[t])
    ensures LogInv(s'.h.log, s'.g.cmd, Waiters(s')) && Balance(s')
  {
    StepWaiters(s, t, s');
    CountedThreads(s);
    assert s.g.waiters == 0 ==> Waiters(s) == {};
    var p, p' := s.pc[t], s'.pc[t];
    RecordLog(s.h, s.g, p, s'.g, p', t, Waiters(s), Waiters(s'));
    RecordReleased(s.h, s.g, p, t, Waiters(s));
    CountUpdate(s.pc, t, p', Waiting);
    CountUpdate(s.pc, t, p', Returning);
  }

  lemma NextInv(s: State, s': State)
    requires Inv(s) && Next(s, s')
    ensures Inv(s')
  {
    var t: Tid :| t < |s.pc| && Step(s, t, s');
    StepSound(s, t, s');
    StepCounts(s, t, s');
    StepLocal(s, t, s');
    StepFlight(s, t, s');
    StepLog(s, t, s');
  }

  ghost predicate Run(tr: seq<State>) { IsRun(Init, Next, tr) }

  lemma RunInv(tr: seq<State>, i: nat)
    requires Run(tr) && i < |tr|
    ensures Inv(tr[i])
  {
    forall s | Init(s) ensures Inv(s) { InitInv(s); }
    forall s, s' | Inv(s) && Next(s, s') ensures Inv(s') { NextInv(s, s'); }
    Always(Init, Next, Inv, tr, i);
  }

  // What every run guarantees ------------------------------------------------

  lemma {:induction false} BatonGroups(pc: seq<PC>)
    ensures Count(pc, Baton) == Count(pc, InEntry) + Count(pc, InNotify) + Count(pc, UnlockPending)
                              + Count(pc, TimedWinner)
  {
    if pc != [] {
      BatonGroups(pc[1..]);
    }
  }

  /** enter_mtx_ is locked iff exactly one of these holds: a thread is in its entry
      section, inside notify_, about to unlock after consuming a command, or about to
      leave after a time-out; or a command is in flight. */
  lemma ExactlyOneBaton(tr: seq<State>, i: nat)
    requires Run(tr) && i < |tr|
    ensures var s := tr[i];
            Count(s.pc, InEntry) + Count(s.pc, InNotify) + Count(s.pc, UnlockPending) + Count(s.pc, TimedWinner)
            + B(s.g.cmd != SLEEPING) == B(s.g.enter)
  {
    RunInv(tr, i);
    BatonGroups(tr[i].pc);
  }

  /** A notifier's compare-exchange on cmd_ succeeds the first time. */
  lemma PublishSucceeds(tr: seq<State>, i: nat, t: Tid)
    requires Run(tr) && i < |tr| && t < |tr[i].pc| && tr[i].pc[t].Publish?
    ensures tr[i].g.cmd == SLEEPING
  {
    RunInv(tr, i);
    BatonAlone(tr[i], t);
  }

  /** Every published NOTIFY_ONE released exactly one of the threads that waited when it
      was published, and every NOTIFY_ALL exactly all of them; only the last command can
      still be in flight. Every wait begun is waiting, released once, or timed out. */
  lemma ExactRelease(tr: seq<State>, i: nat)
    requires Run(tr) && i < |tr|
    ensures var s := tr[i];
            && (forall k :: 0 <= k < |s.h.log| && (k < |s.h.log| - 1 || s.g.cmd == SLEEPING) ==> Complete(s.h.log[k]))
            && (forall k :: 0 <= k < |s.h.log| ==> s.h.log[k].released <= s.h.log[k].waiting)
            && s.h.begun == Count(s.pc, Waiting) + Released(s.h.log) + s.h.expired
            && Released(s.h.log) == s.h.woken + Count(s.pc, Returning)
  {
    RunInv(tr, i);
    var s := tr[i];
    forall k | 0 <= k < |s.h.log| ensures s.h.log[k].released <= s.h.log[k].waiting {
      if k < |s.h.log| - 1 { assert Complete(s.h.log[k]); }
    }
  }

  /** waiters_ counts the registered threads, and no fetch_sub takes it below zero. */
  lemma WaitersExact(tr: seq<State>, i: nat, t: Tid)
    requires Run(tr) && i < |tr| && t < |tr[i].pc|
    ensures tr[i].g.waiters == Count(tr[i].pc, Counted)
    ensures var p := tr[i].pc[t]; p.CountOne? || p.CountAll? || p.CountExpired? ==> tr[i].g.waiters > 0
  {
    RunInv(tr, i);
    CountedThreads(tr[i]);
  }

  /** Has given up the caller's mutex and sleeps until a command or the time-out. */
  predicate Asleep(p: PC) { Waiting(p) && !p.GiveUp? && !p.CountExpired? }

  /** Thread t leaves its sleep at this access: a command releases it, or it times out. */
  predicate Ends(g: Shared, p: PC, p': PC) { Releases(g, p) || p'.CountExpired? }

  lemma AsleepEnds(g: Shared, p: PC, g': Shared, p': PC)
    requires Act(g, p, g', p') && Asleep(p) && !Ends(g, p, p')
    ensures Asleep(p')
  {
  }

  /** The notification that thread n is carrying out ends here, published or not. */
  ghost predicate Finishes(s: State, n: Tid, s': State)
    requires n < |s.pc| == |s'.pc|
  {
    Step(s, n, s') && ((s.pc[n].Load? && s'.pc[n].Skip?) || (s.pc[n].Publish? && !s'.pc[n].Publish?))
  }

  /** At the moment a notification ends it is dropped only if nobody sleeps, and
      otherwise its record covers everybody who does. */
  lemma NotificationCovers(s: State, n: Tid, s': State, w: Tid)
    requires Inv(s) && n < |s.pc| == |s'.pc| && Finishes(s, n, s') && w < |s.pc| && Asleep(s.pc[w])
    ensures s.pc[n].Publish? && s'.h.log == s.h.log + [Notice(s.pc[n].cmd, Waiters(s), {})] && w in Waiters(s)
  {
    CountedThreads(s);
    BatonAlone(s, n);
  }

  /** Some access between i and j ended the sleep of thread w. */
  ghost predicate Ended(tr: seq<State>, i: nat, j: nat, w: Tid) {
    exists k :: i <= k < j && j < |tr| && EndedAt(tr, k, w)
  }

  ghost predicate EndedAt(tr: seq<State>, k: nat, w: Tid) {
    && k + 1 < |tr| && w < |tr[k].pc| && w < |tr[k + 1].pc|
    && Step(tr[k], w, tr[k + 1]) && Ends(tr[k].g, tr[k].pc[w], tr[k + 1].pc[w])
  }

  lemma AsleepStep(s: State, s': State, w: Tid)
    requires Next(s, s') && w < |s.pc| && Asleep(s.pc[w])
    requires w < |s'.pc| ==> !(Step(s, w, s') && Ends(s.g, s.pc[w], s'.pc[w]))
    ensures w < |s'.pc| && Asleep(s'.pc[w])
  {
    var t: Tid :| t < |s.pc| && Step(s, t, s');
    if t == w {
      AsleepEnds(s.g, s.pc[w], s'.g, s'.pc[w]);
    }
  }

  lemma {:induction false} StillAsleep(tr: seq<State>, i: nat, j: nat, w: Tid)
    requires Run(tr) && i <= j < |tr| && w < |tr[i].pc| && Asleep(tr[i].pc[w]) && !Ended(tr, i, j, w)
    ensures w < |tr[j].pc| && Asleep(tr[j].pc[w])
  {
    if i < j {
      StillAsleep(tr, i, j - 1, w);
      assert Next(tr[j - 1], tr[j - 1 + 1]);
      assert !EndedAt(tr, j - 1, w);
      AsleepStep(tr[j - 1], tr[j], w);
    }
  }

  /** Atomic unlock-and-wait: let thread w have given up the caller's mutex at i. A
      notification that ends at j, however it was interleaved, is not dropped past w:
      w was released or timed out on the way, or the notification was published and
      w is among the threads it was published for. */
  lemma NotificationNotLost(tr: seq<State>, i: nat, j: nat, w: Tid, n: Tid)
    requires Run(tr) && i <= j < |tr| - 1 && w < |tr[i].pc| && Asleep(tr[i].pc[w])
    requires n < |tr[j].pc| == |tr[j + 1].pc| && Finishes(tr[j], n, tr[j + 1])
    ensures Ended(tr, i, j, w)
         || (tr[j + 1].h.log != [] && w in tr[j + 1].h.log[|tr[j + 1].h.log| - 1].waiting && tr[j].pc[n].Publish?)
  {
    if !Ended(tr, i, j, w) {
      StillAsleep(tr, i, j, w);
      RunInv(tr, j);
      NotificationCovers(tr[j], n, tr[j + 1], w);
    }
  }

  /** A thread that leaves after a time-out takes no command with it: none is in flight,
      none is being published, and every command so far has done its work. */
  lemma TimeoutSwallowsNothing(tr: seq<State>, i: nat, t: Tid)
    requires Run(tr) && i < |tr| && t < |tr[i].pc| && TimedWinner(tr[i].pc[t])
    ensures tr[i].g.cmd == SLEEPING
    ensures forall u :: 0 <= u < |tr[i].pc| ==> !InNotify(tr[i].pc[u])
    ensures forall k :: 0 <= k < |tr[i].h.log| ==> Complete(tr[i].h.log[k])
  {
    RunInv(tr, i);
    BatonAlone(tr[i], t);
  }

  lemma DrainStep(s: State, t: Tid, s': State)
    requires Inv(s) && t < |s.pc| && Step(s, t, s') && s.g.cmd == NOTIFY_ALL
    ensures Waiters(s') <= Waiters(s)
    ensures s'.g.cmd != NOTIFY_ALL ==> s'.g.cmd == SLEEPING && Waiters(s') == {}
  {
    StepSound(s, t, s');
    StepWaiters(s, t, s');
    CountedThreads(s);
  }

  /** While NOTIFY_ALL is in flight nobody starts to wait: the waiting threads only get
      fewer, and there are none left when cmd_ goes back to SLEEPING. */
  lemma NotifyAllDrains(tr: seq<State>, i: nat)
    requires Run(tr) && i < |tr| - 1 && tr[i].g.cmd == NOTIFY_ALL
    ensures Waiters(tr[i + 1]) <= Waiters(tr[i])
    ensures tr[i + 1].g.cmd != NOTIFY_ALL ==> tr[i + 1].g.cmd == SLEEPING && Waiters(tr[i + 1]) == {}
  {
    RunInv(tr, i);
    assert Next(tr[i], tr[i + 1]);
    var t: Tid :| t < |tr[i].pc| && Step(tr[i], t, tr[i + 1]);
    DrainStep(tr[i], t, tr[i + 1]);
  }

  // Progress of the hand-off --------------------------------------------------

  /** How far a thread is from having let go of enter_mtx_ or of a command. */
  function Weight(p: PC): nat {
    match p
    case Register(_) => 14
    case GiveUp(_) => 13
    case LeaveEntry(_) => 12
    case Spin(_) => 9
    case Expired => 10
    case Check(_) => 8
    case Consume(_) => 7
    case Retry(_) => 10
    case CountOne => 6
    case CountAll => 6
    case Reset => 5
    case Leave(_) => 4
    case CountExpired => 4
    case HandBack(_) => 3
    case Load(_, _) => 6
    case Skip(_) => 5
    case Publish(_, _) => 5
    case _ => 0
  }

  /** Neither starts a call nor waits for the caller's mutex. */
  predicate Independent(p: PC) { !p.Out? && !p.Held? && !p.Relock? }

  /** The next access of a thread that carries the baton, or that can serve the command in flight. */
  lemma Move(g: Shared, p: PC) returns (g': Shared, p': PC)
    requires g.enter && Local(g, p)
    requires g.cmd == SLEEPING ==> Baton(p)
    requires g.cmd != SLEEPING ==> InCheck(p) || p.Spin? || p.Expired? || (p.Check? && !g.check)
    ensures Act(g, p, g', p') && Independent(p) && Weight(p') < Weight(p)
  {
    match p {
      case Register(timed) => g', p' := g.(waiters := g.waiters + 1), GiveUp(timed);
      case GiveUp(timed) => g', p' := g.(caller := false), LeaveEntry(timed);
      case LeaveEntry(timed) => g', p' := g.(enter := false), Spin(timed);
      case Spin(timed) => g', p' := g, Check(timed);
      case Expired => g', p' := g, Spin(true);
      case Check(timed) => g', p' := g.(check := true), Consume(timed);
      case Consume(timed) =>
        if g.cmd == NOTIFY_ONE { g', p' := g.(cmd := SLEEPING), CountOne; } else { g', p' := g, CountAll; }
      case Retry(timed) => g', p' := g.(check := false), Spin(timed);
      case CountOne => g', p' := g.(waiters := g.waiters - 1), Leave(true);
      case CountAll => g', p' := g.(waiters := g.waiters - 1), if g.waiters == 1 then Reset else Leave(false);
      case Reset => g', p' := g.(cmd := SLEEPING), Leave(true);
      case Leave(unlock) => g', p' := g.(check := false), if unlock then HandBack(true) else Relock(true);
      case CountExpired => g', p' := g.(waiters := g.waiters - 1), HandBack(false);
      case HandBack(ok) => g', p' := g.(enter := false), Relock(ok);
      case Load(c, held) => g', p' := g, if g.waiters == 0 then Skip(held) else Publish(c, held);
      case Skip(held) => g', p' := g.(enter := false), Home(held);
      case Publish(c, held) => g', p' := g.(cmd := c), Home(held);
      case _ => assert false;
    }
  }

  /** Whoever the hand-off waits for can move, and it does not need the caller's mutex. */
  lemma Mover(s: State) returns (t: Tid)
    requires Inv(s) && s.g.enter
    ensures t < |s.pc| && Local(s.g, s.pc[t])
    ensures s.g.cmd == SLEEPING ==> Baton(s.pc[t])
    ensures var p := s.pc[t]; s.g.cmd != SLEEPING ==> InCheck(p) || p.Spin? || p.Expired? || (p.Check? && !s.g.check)
  {
    if s.g.cmd == SLEEPING {
      t := CountWitness(s.pc, Baton);
    } else if s.g.check {
      t := CountWitness(s.pc, InCheck);
    } else {
      CountNone(s.pc, InCheck);
      CountNone(s.pc, Baton);
      t := CountWitness(s.pc, Counted);
    }
  }

  /** One step of the hand-off: some thread, without the caller's mutex, takes it further. */
  ghost predicate HandOffStep(s: State, s': State) {
    exists t: Tid :: t < |s.pc| && Step(s, t, s') && Independent(s.pc[t])
  }

  lemma HandOffMoves(s: State) returns (s': State)
    requires Inv(s) && s.g.enter
    ensures HandOffStep(s, s') && Inv(s') && Sum(s'.pc, Weight) < Sum(s.pc, Weight)
  {
    var t := Mover(s);
    var g', p' := Move(s.g, s.pc[t]);
    s' := State(g', s.pc[t := p'], Record(s.h, s.g, s.pc[t], t, Waiters(s)));
    assert Step(s, t, s');
    NextInv(s, s');
    SumUpdate(s.pc, t, p', Weight);
  }

  /** From every reachable state in which enter_mtx_ is locked, the threads inside the
      condition variable can unlock it by themselves, in a bounded number of steps. */
  lemma HandOff(s: State) returns (tr: seq<State>)
    requires Inv(s)
    ensures |tr| > 0 && tr[0] == s && !tr[|tr| - 1].g.enter && |tr| <= Sum(s.pc, Weight) + 1
    ensures Chain(HandOffStep, tr)
  {
    var over, weight := (a: State) => !a.g.enter, (a: State) => Sum(a.pc, Weight);
    forall a | Inv(a) && !over(a) ensures exists b :: HandOffStep(a, b) && Inv(b) && weight(b) < weight(a) {
      var b := HandOffMoves(a);
    }
    tr := Descend(HandOffStep, Inv, over, weight, s);
  }

  lemma HandOffFromRun(tr: seq<State>, i: nat) returns (ext: seq<State>)
    requires Run(tr) && i < |tr|
    ensures |ext| > 0 && ext[0] == tr[i] && !ext[|ext| - 1].g.enter && |ext| <= 14 * |tr[i].pc| + 1
    ensures Chain(HandOffStep, ext)
  {
    RunInv(tr, i);
    ext := HandOff(tr[i]);
    WeightBound(tr[i].pc);
  }

  lemma {:induction false} WeightBound(pc: seq<PC>)
    ensures Sum(pc, Weight) <= 14 * |pc|
  {
    if pc != [] {
      WeightBound(pc[1..]);
    }
  }
}
