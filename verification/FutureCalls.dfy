/** Whole calls on a future, however they interleave: what set_value, set_exception, the end of an
    owner and a task body leave in it is what they were given, and get returns just that. */
module FutureCalls {
  import opened Counting
  import opened Future
  import opened Locks
  import opened Options
  import opened Runs

  lemma Inductive()
    ensures forall s :: Init(s) ==> Inv(s)
    ensures forall s, s' :: Inv(s) && Next(s, s') ==> Inv(s')
  {
    forall s | Init(s) ensures Inv(s) { InitInv(s); }
    forall s, s' | Inv(s) && Next(s, s') ensures Inv(s') { NextInv(s, s'); }
  }

  predicate Stands(s: State, t: Tid, inside: PC -> bool) { t < |s.pc| && inside(s.pc[t]) }

  /** A step of thread u leaves another thread t where it is, or wakes it up. */
  lemma Others(s: State, s': State, u: Tid, t: Tid)
    requires ActStep(s, u, s') || NotifyStep(s, u, s')
    requires t < |s.pc| && t != u
    ensures |s'.pc| == |s.pc| && (s'.pc[t] == s.pc[t] || s'.pc[t] == Awake(s.pc[t]))
  {
  }

  // Finishing the future ------------------------------------------------------------------------

  /** Inside set_value or set_exception, ~promise, owner_destroyed, or run once the body has ended. */
  predicate Finishes(p: PC) {
    || p.SetLock? || p.SetTest? || p.DropLock? || p.DropTest? || p.QuitLock? || p.QuitTest? || p.QuitMark? || p.FinLock?
    || p.Store? || p.Done? || p.Notify? || p.Unlock?
  }

  /** The call begins that is to leave e: what set_value or set_exception was given, what the body
      has returned or thrown, or a broken promise. */
  predicate Owes(e: Entry, p: PC) {
    || (p.SetLock? && e == Entry(p.r, Setter))
    || (p.FinLock? && e == Entry(p.r, Runner))
    || (p.DropLock? && e == Entry(Failed(Some(BrokenPromise)), Dropper))
    || (p.QuitLock? && e == Entry(Failed(Some(BrokenPromise)), Quitter))
  }

  /** How a call refuses to leave anything. */
  function Refusal(who: Who): Reply {
    match who
    case Setter => AlreadySatisfied
    case Dropper => FoundDone
    case _ => FoundStarted
  }

  /** Such a call can stand at p. */
  predicate Leaves(e: Entry, p: PC) {
    match p
    case SetTest(r) => e == Entry(r, Setter)
    case DropTest => e == Entry(BROKEN, Dropper)
    case QuitTest => e == Entry(BROKEN, Quitter)
    case QuitMark => e == Entry(BROKEN, Quitter)
    case Store(r, who) => e == Entry(r, who)
    case Done(who) => e.who == who
    case Notify(who) => e.who == who
    case Unlock(reply) => reply == Finished(e.who) || (!e.who.Runner? && reply == Refusal(e.who))
    case _ => Owes(e, p)
  }

  predicate HasStored(p: PC) { p.Done? || p.Notify? || (p.Unlock? && p.reply.Finished?) }

  /** Thread t stores e. */
  ghost predicate Stores(t: Tid, e: Entry, s: State, s': State) {
    t < |s.pc| == |s'.pc| && !HasStored(s.pc[t]) && HasStored(s'.pc[t]) && s'.settled == s.settled + [e]
  }

  lemma FinishAccess(s: State, t: Tid, s': State, e: Entry)
    requires ActStep(s, t, s') && Leaves(e, s.pc[t])
    ensures if Finishes(s'.pc[t]) then Leaves(e, s'.pc[t]) else s.pc[t].Unlock? && s'.pc[t] == Out
    ensures HasStored(s'.pc[t]) && !HasStored(s.pc[t]) ==> Stores(t, e, s, s')
    ensures HasStored(s.pc[t]) ==> HasStored(s'.pc[t]) || s'.pc[t] == Out
  {
  }

  lemma FinishNotified(s: State, t: Tid, s': State, e: Entry)
    requires NotifyStep(s, t, s') && Leaves(e, s.pc[t])
    ensures s'.pc[t] == Unlock(Finished(e.who)) && HasStored(s.pc[t])
  {
  }

  predicate Finishing(t: Tid, e: Entry, s: State) { t < |s.pc| && Leaves(e, s.pc[t]) }

  lemma FinishFurther(s: State, s': State, t: Tid, e: Entry)
    requires Next(s, s') && Finishing(t, e, s) && Stands(s', t, Finishes)
    ensures Finishing(t, e, s') && B(HasStored(s'.pc[t])) == B(HasStored(s.pc[t])) + B(Stores(t, e, s, s'))
  {
    var u: Tid :| ActStep(s, u, s') || NotifyStep(s, u, s');
    if u != t {
      Others(s, s', u, t);
    } else if ActStep(s, t, s') {
      FinishAccess(s, t, s', e);
    } else {
      FinishNotified(s, t, s', e);
    }
  }

  /** What a reply says of the future. */
  lemma RepliedTruly(s: State, t: Tid)
    requires Inv(s) && t < |s.pc| && s.pc[t].Unlock?
    ensures Replied(s.g, s.settled, s.pc[t].reply) && |s.settled| <= 1
  {
    InvPoised(s, t);
  }

  lemma FinishReturns(s: State, s': State, t: Tid, e: Entry)
    requires Next(s, s') && Finishing(t, e, s) && t < |s'.pc| && !Finishes(s'.pc[t])
    ensures s'.pc[t] == Out && s.pc[t].Unlock? && !Stores(t, e, s, s')
  {
    var u: Tid :| ActStep(s, u, s') || NotifyStep(s, u, s');
    if u != t {
      Others(s, s', u, t);
    } else if ActStep(s, t, s') {
      FinishAccess(s, t, s', e);
    } else {
      FinishNotified(s, t, s', e);
    }
  }

  lemma FinishTracks(t: Tid, e: Entry)
    ensures forall s, s' :: Stands(s', t, Finishes) && Finishing(t, e, s) && Next(s, s') ==>
              Finishing(t, e, s') && B(HasStored(s'.pc[t])) == B(HasStored(s.pc[t])) + B(Stores(t, e, s, s'))
  {
    forall s, s' | Stands(s', t, Finishes) && Finishing(t, e, s) && Next(s, s')
      ensures Finishing(t, e, s') && B(HasStored(s'.pc[t])) == B(HasStored(s.pc[t])) + B(Stores(t, e, s, s')) {
      FinishFurther(s, s', t, e);
    }
  }

  lemma FinishCounts(tr: seq<State>, i: nat, j: nat, t: Tid, e: Entry)
    requires Run(tr) && i < j < |tr| && Finishing(t, e, tr[i]) && !HasStored(tr[i].pc[t])
    requires Throughout((s: State) => Stands(s, t, Finishes), tr, i, j)
    ensures Inv(tr[j - 1]) && Finishing(t, e, tr[j - 1]) && Next(tr[j - 1], tr[j])
    ensures Occurs((s, s') => Stores(t, e, s, s'), tr, i, j)
         == B(HasStored(tr[j - 1].pc[t])) + B(Stores(t, e, tr[j - 1], tr[j]))
  {
    var inside, p := (s: State) => Stands(s, t, Finishes), (s: State) => Finishing(t, e, s);
    var stores, has := (s, s') => Stores(t, e, s, s'), (s: State) => if t < |s.pc| then B(HasStored(s.pc[t])) else 0;
    Inductive();
    FinishTracks(t, e);
    WholeCall(Init, Next, Inv, inside, p, stores, has, tr, i, j);
  }

  lemma OwesLeaves(e: Entry, p: PC)
    requires Owes(e, p)
    ensures Leaves(e, p) && !HasStored(p)
  {
  }

  /** A call that is to finish the future with e, once it has returned: it stored e and nothing else,
      and says so; or it found the future done, or the task started, by somebody else. */
  lemma FinishExact(tr: seq<State>, i: nat, j: nat, t: Tid, e: Entry)
    requires Run(tr) && i < j < |tr| && t < |tr[i].pc| && Owes(e, tr[i].pc[t])
    requires Throughout((s: State) => Stands(s, t, Finishes), tr, i, j) && t < |tr[j].pc| && !Finishes(tr[j].pc[t])
    ensures tr[j].pc[t] == Out && t < |tr[j - 1].pc| && tr[j - 1].pc[t].Unlock?
    ensures var reply := tr[j - 1].pc[t].reply;
            && Occurs((s, s') => Stores(t, e, s, s'), tr, i, j) == B(reply == Finished(e.who))
            && (reply == Finished(e.who) || (!e.who.Runner? && reply == Refusal(e.who)))
            && Replied(tr[j - 1].g, tr[j - 1].settled, reply)
  {
    OwesLeaves(e, tr[i].pc[t]);
    FinishCounts(tr, i, j, t, e);
    FinishReturns(tr[j - 1], tr[j], t, e);
    RepliedTruly(tr[j - 1], t);
  }

  // run -----------------------------------------------------------------------------------------

  /** Inside run. */
  predicate InRun(p: PC) {
    || p.RunLock? || p.RunTest? || p.RunMark? || p.RunUnlock? || p.Body? || p.FinLock? || p.Store? || p.Done?
    || p.Notify? || p.Unlock?
  }

  /** Such a call can stand at p. */
  predicate RunsAt(p: PC) {
    && InRun(p) && (p.Store? || p.Done? || p.Notify? ==> p.who.Runner?)
    && (p.Unlock? ==> p.reply == AlreadyStarted || p.reply == Finished(Runner))
  }

  /** Past the end of the body. */
  predicate HasEnded(p: PC) {
    p.FinLock? || p.Store? || p.Done? || p.Notify? || (p.Unlock? && p.reply == Finished(Runner))
  }

  predicate HasEntered(p: PC) { p.Body? || HasEnded(p) }

  /** The body that thread t runs ends. */
  predicate Ends(t: Tid, s: State, s': State) {
    t < |s.pc| == |s'.pc| && s.pc[t].Body? && s'.pc[t].FinLock?
  }

  /** Thread t enters the body. */
  predicate Enters(t: Tid, s: State, s': State) {
    t < |s.pc| == |s'.pc| && !s.pc[t].Body? && s'.pc[t].Body? && s'.bodies == s.bodies + 1
  }

  predicate Running(t: Tid, s: State) { t < |s.pc| && RunsAt(s.pc[t]) }

  lemma RunAccess(s: State, t: Tid, s': State)
    requires ActStep(s, t, s') && Running(t, s)
    ensures if InRun(s'.pc[t]) then Running(t, s') else s.pc[t].Unlock? && s'.pc[t] == Out
    ensures InRun(s'.pc[t]) ==> B(HasEnded(s'.pc[t])) == B(HasEnded(s.pc[t])) + B(Ends(t, s, s'))
    ensures InRun(s'.pc[t]) ==> B(HasEntered(s'.pc[t])) == B(HasEntered(s.pc[t])) + B(Enters(t, s, s'))
  {
  }

  lemma RunFurther(s: State, s': State, t: Tid)
    requires Next(s, s') && Running(t, s) && Stands(s', t, InRun)
    ensures Running(t, s') && B(HasEnded(s'.pc[t])) == B(HasEnded(s.pc[t])) + B(Ends(t, s, s'))
    ensures B(HasEntered(s'.pc[t])) == B(HasEntered(s.pc[t])) + B(Enters(t, s, s'))
  {
    var u: Tid :| ActStep(s, u, s') || NotifyStep(s, u, s');
    if u != t {
      Others(s, s', u, t);
    } else if ActStep(s, t, s') {
      RunAccess(s, t, s');
    }
  }

  lemma RunReturns(s: State, s': State, t: Tid)
    requires Next(s, s') && Running(t, s) && t < |s'.pc| && !InRun(s'.pc[t])
    ensures s.pc[t].Unlock? && s'.pc[t] == Out
  {
    var u: Tid :| ActStep(s, u, s') || NotifyStep(s, u, s');
    if u != t {
      Others(s, s', u, t);
    } else if ActStep(s, t, s') {
      RunAccess(s, t, s');
    }
  }

  /** What rel counts is what thread t has done in its run, as where it stands tells. */
  ghost predicate RunTracks(t: Tid, has: PC -> bool, rel: (State, State) -> bool) {
    forall s, s' :: Running(t, s) && Stands(s', t, InRun) && Next(s, s') ==>
      Running(t, s') && B(has(s'.pc[t])) == B(has(s.pc[t])) + B(rel(s, s'))
  }

  lemma BothTrack(t: Tid)
    ensures RunTracks(t, HasEnded, (s, s') => Ends(t, s, s')) && RunTracks(t, HasEntered, (s, s') => Enters(t, s, s'))
  {
    forall s, s' | Running(t, s) && Stands(s', t, InRun) && Next(s, s')
      ensures Running(t, s') && B(HasEnded(s'.pc[t])) == B(HasEnded(s.pc[t])) + B(Ends(t, s, s'))
      ensures B(HasEntered(s'.pc[t])) == B(HasEntered(s.pc[t])) + B(Enters(t, s, s')) {
      RunFurther(s, s', t);
    }
  }

  lemma RunCounts(tr: seq<State>, i: nat, j: nat, t: Tid, has: PC -> bool, rel: (State, State) -> bool)
    requires Run(tr) && i < j < |tr| && t < |tr[i].pc| && tr[i].pc[t] == RunLock && !has(RunLock)
    requires Throughout((s: State) => Stands(s, t, InRun), tr, i, j) && RunTracks(t, has, rel)
    ensures Inv(tr[j - 1]) && Running(t, tr[j - 1]) && Next(tr[j - 1], tr[j])
    ensures Occurs(rel, tr, i, j) == B(has(tr[j - 1].pc[t])) + B(rel(tr[j - 1], tr[j]))
  {
    var inside, p := (s: State) => Stands(s, t, InRun), (s: State) => Running(t, s);
    var n := (s: State) => if t < |s.pc| then B(has(s.pc[t])) else 0;
    Inductive();
    WholeCall(Init, Next, Inv, inside, p, rel, n, tr, i, j);
  }

  /** The body of thread t ends with r between k and k + 1, and what it stores after that and before j is r. */
  ghost predicate EndsWith(tr: seq<State>, k: nat, j: nat, t: Tid, r: Result) {
    && k + 1 < j < |tr| && t < |tr[k].pc| && t < |tr[k + 1].pc| && tr[k].pc[t] == Body && tr[k + 1].pc[t] == FinLock(r)
    && Occurs((s, s') => Stores(t, Entry(r, Runner), s, s'), tr, k + 1, j) == 1
  }

  /** A run whose reply is that it has finished has ended the body, and stored what that ended with. */
  lemma RunStored(tr: seq<State>, i: nat, j: nat, t: Tid)
    requires Run(tr) && i < j < |tr| && t < |tr[i].pc| && tr[i].pc[t] == RunLock
    requires Throughout((s: State) => Stands(s, t, InRun), tr, i, j) && t < |tr[j].pc| && tr[j].pc[t] == Out
    requires t < |tr[j - 1].pc| && tr[j - 1].pc[t] == Unlock(Finished(Runner))
    ensures exists k, r :: i <= k && EndsWith(tr, k, j, t, r)
  {
    var ends := (s, s') => Ends(t, s, s');
    BothTrack(t);
    RunCounts(tr, i, j, t, HasEnded, ends);
    var k := OccursSomewhere(ends, tr, i, j);
    EndStored(tr, i, k, j, t);
  }

  /** A call of run that has returned: it entered the body once, and stored what that ended with; or
      the task had been started, and it has not entered it. */
  lemma RunExact(tr: seq<State>, i: nat, j: nat, t: Tid)
    requires Run(tr) && i < j < |tr| && t < |tr[i].pc| && tr[i].pc[t] == RunLock
    requires Throughout((s: State) => Stands(s, t, InRun), tr, i, j) && t < |tr[j].pc| && !InRun(tr[j].pc[t])
    ensures tr[j].pc[t] == Out && t < |tr[j - 1].pc| && tr[j - 1].pc[t].Unlock?
    ensures var reply := tr[j - 1].pc[t].reply;
            && Occurs((s, s') => Enters(t, s, s'), tr, i, j) == B(reply == Finished(Runner))
            && (reply == Finished(Runner) || (reply == AlreadyStarted && tr[j - 1].g.started))
            && (reply == Finished(Runner) ==> exists k, r :: i <= k && EndsWith(tr, k, j, t, r))
  {
    RunEntered(tr, i, j, t);
    if tr[j - 1].pc[t].reply == Finished(Runner) { RunStored(tr, i, j, t); }
  }

  lemma RunEntered(tr: seq<State>, i: nat, j: nat, t: Tid)
    requires Run(tr) && i < j < |tr| && t < |tr[i].pc| && tr[i].pc[t] == RunLock
    requires Throughout((s: State) => Stands(s, t, InRun), tr, i, j) && t < |tr[j].pc| && !InRun(tr[j].pc[t])
    ensures tr[j].pc[t] == Out && t < |tr[j - 1].pc| && tr[j - 1].pc[t].Unlock?
    ensures var reply := tr[j - 1].pc[t].reply;
            && Occurs((s, s') => Enters(t, s, s'), tr, i, j) == B(reply == Finished(Runner))
            && (reply == Finished(Runner) || (reply == AlreadyStarted && tr[j - 1].g.started))
  {
    BothTrack(t);
    RunCounts(tr, i, j, t, HasEntered, (s, s') => Enters(t, s, s'));
    RunReturns(tr[j - 1], tr[j], t);
    RepliedTruly(tr[j - 1], t);
  }

  lemma EndStored(tr: seq<State>, i: nat, k: nat, j: nat, t: Tid)
    requires Run(tr) && i <= k < j < |tr| && Throughout((s: State) => Stands(s, t, InRun), tr, i, j)
    requires Ends(t, tr[k], tr[k + 1]) && t < |tr[j].pc| && tr[j].pc[t] == Out && k + 1 < j
    ensures EndsWith(tr, k, j, t, tr[k + 1].pc[t].r)
  {
    var e := Entry(tr[k + 1].pc[t].r, Runner);
    AfterEnd(tr, k + 1, j, t, e);
    FinishExact(tr, k + 1, j, t, e);
  }

  /** After the end of the body the call only finishes. */
  lemma AfterEnd(tr: seq<State>, k: nat, j: nat, t: Tid, e: Entry)
    requires Run(tr) && k < j < |tr| && t < |tr[k].pc| && tr[k].pc[t].FinLock? && Owes(e, tr[k].pc[t])
    requires Throughout((s: State) => Stands(s, t, InRun), tr, k, j)
    ensures Throughout((s: State) => Stands(s, t, Finishes), tr, k, j)
  {
    var inside, p := (s: State) => Stands(s, t, InRun), (s: State) => Finishing(t, e, s);
    var never, zero := (s: State, s': State) => false, (s: State) => 0;
    forall m | k <= m < j ensures Stands(tr[m], t, Finishes) {
      forall s, s' | p(s) && inside(s') && Next(s, s') ensures p(s') { FinishKept(s, s', t, e); }
      During(Next, inside, p, never, zero, tr, k, m);
    }
  }

  lemma FinishKept(s: State, s': State, t: Tid, e: Entry)
    requires Next(s, s') && Finishing(t, e, s) && Stands(s', t, InRun)
    ensures Finishing(t, e, s') && Finishes(s'.pc[t])
  {
    if Finishes(s'.pc[t]) {
      FinishFurther(s, s', t, e);
    } else {
      FinishReturns(s, s', t, e);
    }
  }

  // wait, timed_wait_until and get --------------------------------------------------------------

  predicate InWait(p: PC) {
    || p.WaitLock? || p.WaitCheck? || p.WaitRelease? || p.Callback? || p.WaitRelock? || p.WaitTest? || p.Asleep?
    || p.Woken? || p.WaitLeave? || p.Unlock?
  }

  /** Such a call, with a time-out if timed, can stand at p. */
  predicate Called(timed: bool, p: PC) {
    && InWait(p)
    && (p.WaitLeave? || p.Unlock? || p.timed == timed) && (p.WaitTest? || p.Woken? ==> p.expired ==> timed)
    && (p.Unlock? ==> p.reply.Ready? || (p.reply == TimedOut && timed) || p.reply == CallbackThrew)
  }

  /** Thread t looks whether there is a callback to fire. */
  predicate Checks(t: Tid, s: State, s': State) {
    t < |s.pc| == |s'.pc| && s.pc[t].WaitCheck? && !s'.pc[t].WaitCheck?
  }

  /** It finds one, on a future that is not done. */
  predicate SeesLazy(t: Tid, s: State, s': State) { Checks(t, s, s') && s.g.callback && !s.g.done }

  /** It fires it. */
  predicate Fires(t: Tid, s: State, s': State) {
    t < |s.pc| == |s'.pc| && s.pc[t].Callback? && s'.pc[t].WaitRelock?
  }

  /** And that throws. */
  predicate Throws(t: Tid, s: State, s': State) { Fires(t, s, s') && s'.pc[t].threw }

  predicate HasChecked(p: PC) { !p.WaitLock? && !p.WaitCheck? }

  predicate HasThrown(p: PC) { (p.WaitRelock? && p.threw) || (p.Unlock? && p.reply == CallbackThrew) }

  predicate ToFire(p: PC) { p.WaitRelease? || p.Callback? }

  predicate Waiting(t: Tid, timed: bool, s: State) { t < |s.pc| && Called(timed, s.pc[t]) }

  lemma WaitAccess(s: State, t: Tid, s': State, timed: bool)
    requires ActStep(s, t, s') && Waiting(t, timed, s)
    ensures if InWait(s'.pc[t]) then Waiting(t, timed, s') else s.pc[t].Unlock? && s'.pc[t] == Out
  {
  }

  lemma WaitDoes(s: State, t: Tid, s': State)
    requires ActStep(s, t, s') && InWait(s.pc[t]) && InWait(s'.pc[t])
    ensures B(HasChecked(s'.pc[t])) == B(HasChecked(s.pc[t])) + B(Checks(t, s, s'))
    ensures B(HasThrown(s'.pc[t])) == B(HasThrown(s.pc[t])) + B(Throws(t, s, s'))
    ensures B(ToFire(s'.pc[t])) + B(Fires(t, s, s')) == B(ToFire(s.pc[t])) + B(SeesLazy(t, s, s'))
  {
  }

  lemma WaitFurther(s: State, s': State, t: Tid, timed: bool)
    requires Next(s, s') && Waiting(t, timed, s) && Stands(s', t, InWait)
    ensures Waiting(t, timed, s') && B(HasChecked(s'.pc[t])) == B(HasChecked(s.pc[t])) + B(Checks(t, s, s'))
    ensures B(HasThrown(s'.pc[t])) == B(HasThrown(s.pc[t])) + B(Throws(t, s, s'))
    ensures B(ToFire(s'.pc[t])) + B(Fires(t, s, s')) == B(ToFire(s.pc[t])) + B(SeesLazy(t, s, s'))
  {
    var u: Tid :| ActStep(s, u, s') || NotifyStep(s, u, s');
    if u != t {
      Others(s, s', u, t);
    } else if ActStep(s, t, s') {
      WaitAccess(s, t, s', timed);
      WaitDoes(s, t, s');
    }
  }

  lemma WaitReturns(s: State, s': State, t: Tid, timed: bool)
    requires Next(s, s') && Waiting(t, timed, s) && t < |s'.pc| && !InWait(s'.pc[t])
    ensures s.pc[t].Unlock? && s'.pc[t] == Out
  {
    var u: Tid :| ActStep(s, u, s') || NotifyStep(s, u, s');
    if u != t {
      Others(s, s', u, t);
    } else if ActStep(s, t, s') {
      WaitAccess(s, t, s', timed);
    }
  }

  /** What up counts, less what down counts, is where thread t stands in its wait. */
  ghost predicate WaitTracks(t: Tid, timed: bool, has: PC -> bool, up: (State, State) -> bool,
                             down: (State, State) -> bool) {
    forall s, s' :: Waiting(t, timed, s) && Stands(s', t, InWait) && Next(s, s') ==>
      Waiting(t, timed, s') && B(has(s'.pc[t])) + B(down(s, s')) == B(has(s.pc[t])) + B(up(s, s'))
  }

  lemma AllTrack(t: Tid, timed: bool)
    ensures WaitTracks(t, timed, HasChecked, (s, s') => Checks(t, s, s'), (s, s') => false)
    ensures WaitTracks(t, timed, HasThrown, (s, s') => Throws(t, s, s'), (s, s') => false)
    ensures WaitTracks(t, timed, ToFire, (s, s') => SeesLazy(t, s, s'), (s, s') => Fires(t, s, s'))
  {
    forall s, s' | Waiting(t, timed, s) && Stands(s', t, InWait) && Next(s, s')
      ensures Waiting(t, timed, s') && B(HasChecked(s'.pc[t])) == B(HasChecked(s.pc[t])) + B(Checks(t, s, s'))
      ensures B(HasThrown(s'.pc[t])) == B(HasThrown(s.pc[t])) + B(Throws(t, s, s'))
      ensures B(ToFire(s'.pc[t])) + B(Fires(t, s, s')) == B(ToFire(s.pc[t])) + B(SeesLazy(t, s, s')) {
      WaitFurther(s, s', t, timed);
    }
  }

  lemma WaitCounts(tr: seq<State>, i: nat, j: nat, t: Tid, timed: bool, has: PC -> bool, up: (State, State) -> bool,
                   down: (State, State) -> bool)
    requires Run(tr) && i < j < |tr| && t < |tr[i].pc| && tr[i].pc[t] == WaitLock(timed) && !has(WaitLock(timed))
    requires Throughout((s: State) => Stands(s, t, InWait), tr, i, j) && WaitTracks(t, timed, has, up, down)
    ensures Waiting(t, timed, tr[j - 1])
    ensures B(has(tr[j - 1].pc[t])) + Occurs(down, tr, i, j - 1) == Occurs(up, tr, i, j - 1)
  {
    var inside, p := (s: State) => Stands(s, t, InWait), (s: State) => Waiting(t, timed, s);
    var n := (s: State) => if t < |s.pc| then B(has(s.pc[t])) else 0;
    Balance(Next, inside, p, up, down, n, tr, i, j - 1);
  }

  /** Where the call stands before its last step. */
  lemma WaitEnds(tr: seq<State>, i: nat, j: nat, t: Tid, timed: bool)
    requires Run(tr) && i < j < |tr| && t < |tr[i].pc| && tr[i].pc[t] == WaitLock(timed)
    requires Throughout((s: State) => Stands(s, t, InWait), tr, i, j) && t < |tr[j].pc| && !InWait(tr[j].pc[t])
    ensures Waiting(t, timed, tr[j - 1]) && tr[j - 1].pc[t].Unlock? && tr[j].pc[t] == Out
  {
    var never := (s: State, s': State) => false;
    AllTrack(t, timed);
    WaitCounts(tr, i, j, t, timed, HasChecked, (s, s') => Checks(t, s, s'), never);
    assert Next(tr[j - 1], tr[j - 1 + 1]);
    WaitReturns(tr[j - 1], tr[j], t, timed);
  }

  lemma WaitFired(tr: seq<State>, i: nat, j: nat, t: Tid, timed: bool)
    requires Run(tr) && i < j < |tr| && t < |tr[i].pc| && tr[i].pc[t] == WaitLock(timed)
    requires Throughout((s: State) => Stands(s, t, InWait), tr, i, j)
    requires t < |tr[j - 1].pc| && tr[j - 1].pc[t].Unlock?
    ensures Occurs((s, s') => Fires(t, s, s'), tr, i, j) == Occurs((s, s') => SeesLazy(t, s, s'), tr, i, j)
  {
    AllTrack(t, timed);
    WaitCounts(tr, i, j, t, timed, ToFire, (s, s') => SeesLazy(t, s, s'), (s, s') => Fires(t, s, s'));
  }

  lemma WaitDone(tr: seq<State>, i: nat, j: nat, t: Tid, timed: bool)
    requires Run(tr) && i < j < |tr| && t < |tr[i].pc| && tr[i].pc[t] == WaitLock(timed)
    requires Throughout((s: State) => Stands(s, t, InWait), tr, i, j)
    requires t < |tr[j - 1].pc| && tr[j - 1].pc[t].Unlock?
    ensures Occurs((s, s') => Checks(t, s, s'), tr, i, j) == 1
    ensures Occurs((s, s') => Throws(t, s, s'), tr, i, j) == B(tr[j - 1].pc[t].reply == CallbackThrew)
  {
    var never := (s: State, s': State) => false;
    AllTrack(t, timed);
    OccursNever(never, tr, i, j - 1);
    WaitCounts(tr, i, j, t, timed, HasChecked, (s, s') => Checks(t, s, s'), never);
    WaitCounts(tr, i, j, t, timed, HasThrown, (s, s') => Throws(t, s, s'), never);
  }

  /** A call of wait, timed_wait_until or get that has returned: either the future is done, and the
      value or exception is the one stored; or its time was over, if it had one, and the future is
      not done; or the callback threw. The callback was fired exactly if there was one and the
      future was not done when the call looked, which it did once. */
  lemma GetExact(tr: seq<State>, i: nat, j: nat, t: Tid, timed: bool)
    requires Run(tr) && i < j < |tr| && t < |tr[i].pc| && tr[i].pc[t] == WaitLock(timed)
    requires Throughout((s: State) => Stands(s, t, InWait), tr, i, j) && t < |tr[j].pc| && !InWait(tr[j].pc[t])
    ensures tr[j].pc[t] == Out && t < |tr[j - 1].pc| && tr[j - 1].pc[t].Unlock?
    ensures var reply, s := tr[j - 1].pc[t].reply, tr[j - 1];
            || (reply.Ready? && s.g.done && |s.settled| == 1 && reply.r == s.settled[0].r)
            || (reply == TimedOut && timed && !s.g.done)
            || reply == CallbackThrew
    ensures Occurs((s, s') => Checks(t, s, s'), tr, i, j) == 1
    ensures Occurs((s, s') => Fires(t, s, s'), tr, i, j) == Occurs((s, s') => SeesLazy(t, s, s'), tr, i, j)
    ensures Occurs((s, s') => Throws(t, s, s'), tr, i, j) == B(tr[j - 1].pc[t].reply == CallbackThrew)
  {
    WaitEnds(tr, i, j, t, timed);
    WaitDone(tr, i, j, t, timed);
    WaitFired(tr, i, j, t, timed);
    RunInv(tr, j - 1);
    RepliedTruly(tr[j - 1], t);
  }

  /** What a get returns is what the one call that finished the future left: with e in hand when a
      call has returned as finished, every get that has returned a value or exception returned e.r. */
  lemma GetReturnsGiven(tr: seq<State>, i: nat, j: nat, t: Tid, e: Entry, i': nat, j': nat, u: Tid, timed: bool)
    requires Run(tr) && i < j < |tr| && t < |tr[i].pc| && Owes(e, tr[i].pc[t])
    requires Throughout((s: State) => Stands(s, t, Finishes), tr, i, j) && t < |tr[j].pc| && !Finishes(tr[j].pc[t])
    requires t < |tr[j - 1].pc| && tr[j - 1].pc[t] == Unlock(Finished(e.who))
    requires i' < j' < |tr| && u < |tr[i'].pc| && tr[i'].pc[u] == WaitLock(timed)
    requires Throughout((s: State) => Stands(s, u, InWait), tr, i', j') && u < |tr[j'].pc| && !InWait(tr[j'].pc[u])
    requires u < |tr[j' - 1].pc| && tr[j' - 1].pc[u].Unlock? && tr[j' - 1].pc[u].reply.Ready?
    ensures tr[j' - 1].pc[u].reply.r == e.r
  {
    StoredIs(tr, i, j, t, e);
    GetExact(tr, i', j', u, timed);
    SameSettled(tr, j - 1, j' - 1);
  }

  /** After a call that has finished the future with e, that is the one thing stored. */
  lemma StoredIs(tr: seq<State>, i: nat, j: nat, t: Tid, e: Entry)
    requires Run(tr) && i < j < |tr| && t < |tr[i].pc| && Owes(e, tr[i].pc[t])
    requires Throughout((s: State) => Stands(s, t, Finishes), tr, i, j) && t < |tr[j].pc| && !Finishes(tr[j].pc[t])
    requires t < |tr[j - 1].pc| && tr[j - 1].pc[t] == Unlock(Finished(e.who))
    ensures tr[j - 1].settled == [e]
  {
    var stores := (s, s') => Stores(t, e, s, s');
    FinishExact(tr, i, j, t, e);
    var k := OccursSomewhere(stores, tr, i, j);
    SingleAssignment(tr, k + 1);
    assert tr[k + 1].settled == [e];
    SettledForever(tr, k + 1, j - 1);
  }

  lemma SameSettled(tr: seq<State>, a: nat, b: nat)
    requires Run(tr) && a < |tr| && b < |tr| && tr[a].settled != [] && tr[b].settled != []
    ensures tr[a].settled == tr[b].settled
  {
    if a <= b { SettledForever(tr, a, b); } else { SettledForever(tr, b, a); }
  }
}
