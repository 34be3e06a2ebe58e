/** Whole calls of the bounded channel, however they interleave: put accepts the value it was
    given, take returns the one it has removed, and a call that fails had its reason. */
module ChannelCalls {
  import opened BoundedChannel
  import opened Counting
  import opened Locks
  import opened Options
  import opened Runs

  lemma Inductive()
    ensures forall s :: Init(s) ==> Inv(s)
    ensures forall s, s' :: Inv(s) && Next(s, s') ==> Inv(s')
  {
    forall s | Init(s) ensures Inv(s) { InitInv(s); }
    forall s, s' | Inv(s) && Next(s, s') ensures Inv(s') { NextInv(s, s'); }
  }

  /** Thread t is where inside says. */
  predicate Stands(s: State, t: Tid, inside: PC -> bool) { t < |s.pc| && inside(s.pc[t]) }

  /** What a step of thread u does to another thread t, if it does anything: it wakes it up. */
  lemma Others(s: State, s': State, u: Tid, t: Tid)
    requires ActStep(s, u, s') || NotifyStep(s, u, s')
    requires t < |s.pc| && t != u
    ensures |s'.pc| == |s.pc|
    ensures s'.pc[t] == s.pc[t] || s'.pc[t] == Awake(s.pc[t], true) || s'.pc[t] == Awake(s.pc[t], false)
  {
  }

  /** No step makes the channel active again. */
  lemma StaysInactive(s: State, s': State)
    requires Next(s, s')
    ensures s'.g.active ==> s.g.active
  {
    var t: Tid :| ActStep(s, t, s') || NotifyStep(s, t, s');
  }

  // put -----------------------------------------------------------------------------------------

  predicate InPut(p: PC) {
    || p.PutAlloc? || p.PutLock? || p.PutFull? || p.PutLoopActive? || p.PutLoopFull? || p.PutSleep? || p.PutAsleep?
    || p.PutWoken? || p.PutActive? || p.PutReject? || HasValue(p) || HasPut(p)
  }

  predicate HasValue(p: PC) { p.PutValue? || p.PutLink? || p.PutMove? }

  /** Has linked its value in. */
  predicate HasPut(p: PC) { p.PutCount? || p.PutUnlock? || p.PutNotify? }

  /** A call with this value can stand at p. */
  predicate Given(x: Value, p: PC) { InPut(p) && (HasPut(p) || p.PutReject? || p.x == x) }

  /** Thread t puts x behind all values accepted before. */
  ghost predicate Accepts(t: Tid, x: Value, s: State, s': State) {
    t < |s.pc| == |s'.pc| && !HasPut(s.pc[t]) && HasPut(s'.pc[t]) && s'.h.accepted == s.h.accepted + [x]
  }

  predicate Putting(t: Tid, x: Value, s: State) {
    t < |s.pc| && Given(x, s.pc[t]) && (s.pc[t].PutReject? ==> !s.g.active)
  }

  lemma PutAccess(s: State, t: Tid, s': State, x: Value)
    requires ActStep(s, t, s') && Putting(t, x, s)
    ensures Given(x, s'.pc[t]) || (s.pc[t].PutReject? && s'.pc[t] == Out)
    ensures HasPut(s'.pc[t]) && !HasPut(s.pc[t]) ==> Accepts(t, x, s, s')
    ensures HasPut(s.pc[t]) ==> HasPut(s'.pc[t])
    ensures s'.pc[t].PutReject? ==> !s'.g.active
  {
  }

  lemma PutFurther(s: State, s': State, t: Tid, x: Value)
    requires Next(s, s') && Putting(t, x, s) && Stands(s', t, InPut)
    ensures Putting(t, x, s') && B(HasPut(s'.pc[t])) == B(HasPut(s.pc[t])) + B(Accepts(t, x, s, s'))
  {
    StaysInactive(s, s');
    var u: Tid :| ActStep(s, u, s') || NotifyStep(s, u, s');
    if u != t {
      Others(s, s', u, t);
    } else if ActStep(s, t, s') {
      PutAccess(s, t, s', x);
    }
  }

  lemma PutReturns(s: State, s': State, t: Tid, x: Value)
    requires Next(s, s') && Putting(t, x, s) && t < |s'.pc| && !InPut(s'.pc[t])
    ensures s'.pc[t] == Out && (s.pc[t].PutNotify? || (s.pc[t].PutReject? && !s'.g.active)) && !Accepts(t, x, s, s')
  {
    StaysInactive(s, s');
    var u: Tid :| ActStep(s, u, s') || NotifyStep(s, u, s');
    if u != t {
      Others(s, s', u, t);
    } else if ActStep(s, t, s') {
      PutAccess(s, t, s', x);
    }
  }

  /** What rel counts is what thread t has done in its put, as where it stands tells. */
  lemma PutTracks(t: Tid, x: Value)
    ensures forall s, s' :: Stands(s', t, InPut) && Putting(t, x, s) && Next(s, s') ==>
              Putting(t, x, s') && B(HasPut(s'.pc[t])) == B(HasPut(s.pc[t])) + B(Accepts(t, x, s, s'))
  {
    forall s, s' | Stands(s', t, InPut) && Putting(t, x, s) && Next(s, s')
      ensures Putting(t, x, s') && B(HasPut(s'.pc[t])) == B(HasPut(s.pc[t])) + B(Accepts(t, x, s, s')) {
      PutFurther(s, s', t, x);
    }
  }

  /** A call of put that has returned: it put the value it was given behind all others, once; or it
      has thrown, on an inactive channel, and put nothing. */
  lemma PutExact(tr: seq<State>, i: nat, j: nat, t: Tid, x: Value)
    requires Run(tr) && i < j < |tr| && t < |tr[i].pc| && tr[i].pc[t] == PutAlloc(x)
    requires Throughout((s: State) => Stands(s, t, InPut), tr, i, j) && t < |tr[j].pc| && !InPut(tr[j].pc[t])
    ensures tr[j].pc[t] == Out && t < |tr[j - 1].pc| && (tr[j - 1].pc[t].PutNotify? || tr[j - 1].pc[t].PutReject?)
    ensures Occurs((s, s') => Accepts(t, x, s, s'), tr, i, j) == B(tr[j - 1].pc[t].PutNotify?)
    ensures tr[j - 1].pc[t].PutReject? ==> !tr[j].g.active
  {
    PutCounts(tr, i, j, t, x);
    PutReturns(tr[j - 1], tr[j], t, x);
  }

  lemma PutCounts(tr: seq<State>, i: nat, j: nat, t: Tid, x: Value)
    requires Run(tr) && i < j < |tr| && t < |tr[i].pc| && tr[i].pc[t] == PutAlloc(x)
    requires Throughout((s: State) => Stands(s, t, InPut), tr, i, j)
    ensures Putting(t, x, tr[j - 1]) && Next(tr[j - 1], tr[j])
    ensures Occurs((s, s') => Accepts(t, x, s, s'), tr, i, j)
         == B(HasPut(tr[j - 1].pc[t])) + B(Accepts(t, x, tr[j - 1], tr[j]))
  {
    var inside, p := (s: State) => Stands(s, t, InPut), (s: State) => Putting(t, x, s);
    var accepts, has := (s, s') => Accepts(t, x, s, s'), (s: State) => if t < |s.pc| then B(HasPut(s.pc[t])) else 0;
    Inductive();
    PutTracks(t, x);
    WholeCall(Init, Next, Inv, inside, p, accepts, has, tr, i, j);
  }

  // take and try_take ----------------------------------------------------------------------------

  predicate InTake(p: PC) {
    || p.TakeLock? || p.TakeEmpty? || p.TakeCheck? || p.TakeLoopActive? || p.TakeLoopEmpty? || p.TakeSleep?
    || p.TakeAsleep? || p.TakeWoken? || p.TakeGuardActive? || p.TakeGuardEmpty? || p.TakeSwap? || p.TakePop?
    || HasTaken(p) || p.TakeFail?
  }

  /** Has removed a value from the list. */
  predicate HasTaken(p: PC) { p.TakeSub? || p.TakeSize? || p.TakeNotify? || p.TakeUnlock? }

  /** A call of try_take, if once, or of take can stand at p. */
  predicate CalledOnce(once: bool, p: PC) {
    && InTake(p)
    && (p.TakeLock? || p.TakeEmpty? || p.TakeFail? ==> p.once == once)
    && (Waits(p) ==> !once)
  }

  /** On the way that only take goes. */
  predicate Waits(p: PC) {
    || p.TakeCheck? || p.TakeLoopActive? || p.TakeLoopEmpty? || p.TakeSleep? || p.TakeAsleep? || p.TakeWoken?
    || p.TakeGuardActive? || p.TakeGuardEmpty?
  }

  /** Thread t removes v, the first of the values that are left. */
  ghost predicate Removes(t: Tid, v: Value, s: State, s': State) {
    && t < |s.pc| == |s'.pc| && !HasTaken(s.pc[t]) && HasTaken(s'.pc[t])
    && |s.h.taken| < |s.h.accepted| && s.h.accepted[|s.h.taken|] == v && s'.h.taken == s.h.taken + [v]
  }

  /** Thread t removes a value, whichever. */
  predicate RemovesSome(t: Tid, s: State, s': State) {
    t < |s.pc| == |s'.pc| && !HasTaken(s.pc[t]) && HasTaken(s'.pc[t])
  }

  /** Thread t finds the list empty, and gives up. */
  ghost predicate FindsEmpty(t: Tid, s: State, s': State) {
    && t < |s.pc| == |s'.pc| && !s.pc[t].TakeFail? && s'.pc[t].TakeFail?
    && s.h.taken == s.h.accepted
  }

  predicate HasTakenThis(v: Value, p: PC) { HasTaken(p) && p.va == Some(v) }

  /** What the invariant promises to a thread at the head of the list. */
  lemma AtTheHead(s: State, t: Tid)
    requires Inv(s) && t < |s.pc|
    ensures s.pc[t].TakePop? ==> |s.h.taken| < |s.h.accepted| && s.pc[t].va == Some(s.h.accepted[|s.h.taken|])
    ensures s.pc[t].TakeEmpty? && s.h.head == s.h.tail ==> s.h.taken == s.h.accepted
    ensures s.pc[t].TakeLoopEmpty? ==> s.g.active && (s.h.head == s.h.tail ==> s.h.taken == s.h.accepted)
    ensures s.pc[t].PutLoopFull? ==> s.g.active
    ensures s.pc[t].TakeUnlock? ==> s.pc[t].va.Some?
    ensures s.pc[t] == TakeFail(false) ==> !s.g.active && s.h.taken == s.h.accepted
  {
    LocksFit(s, t);
    EmptyIff(s.h);
  }

  lemma TakeAccess(s: State, t: Tid, s': State, once: bool)
    requires ActStep(s, t, s') && t < |s.pc| && CalledOnce(once, s.pc[t])
    ensures CalledOnce(once, s'.pc[t]) || (s'.pc[t] == Out && (s.pc[t].TakeUnlock? || s.pc[t].TakeFail?))
    ensures HasTaken(s'.pc[t]) && !HasTaken(s.pc[t]) ==> s.pc[t].TakePop? && s'.pc[t].va == s.pc[t].va
    ensures HasTaken(s.pc[t]) && HasTaken(s'.pc[t]) ==> s'.pc[t].va == s.pc[t].va
    ensures HasTaken(s.pc[t]) ==> HasTaken(s'.pc[t]) || s'.pc[t] == Out
    ensures once && s'.pc[t].TakeFail? ==> s.pc[t].TakeEmpty? && s.h.head == s.h.tail
    ensures s.pc[t].TakePop? && s.pc[t].va.Some? ==> s'.h.taken == s.h.taken + [s.pc[t].va.value]
    ensures s.pc[t].TakeFail? ==> s'.pc[t] == Out
  {
  }

  predicate Taking(t: Tid, once: bool, s: State) { t < |s.pc| && CalledOnce(once, s.pc[t]) }

  lemma TakeNotified(s: State, t: Tid, s': State, once: bool)
    requires NotifyStep(s, t, s') && Taking(t, once, s)
    ensures s.pc[t].TakeNotify? && s'.pc[t] == TakeUnlock(s.pc[t].va)
  {
  }

  /** What its own access counts for. */
  lemma TakeDone(s: State, t: Tid, s': State, once: bool, v: Value)
    requires ActStep(s, t, s') && Taking(t, once, s) && InTake(s'.pc[t])
    requires s.pc[t].TakePop? ==> |s.h.taken| < |s.h.accepted| && s.pc[t].va == Some(s.h.accepted[|s.h.taken|])
    requires s.pc[t].TakeEmpty? && s.h.head == s.h.tail ==> s.h.taken == s.h.accepted
    ensures CalledOnce(once, s'.pc[t]) && (HasTaken(s.pc[t]) ==> HasTaken(s'.pc[t]))
    ensures B(HasTakenThis(v, s'.pc[t])) == B(HasTakenThis(v, s.pc[t])) + B(Removes(t, v, s, s'))
    ensures once ==> B(s'.pc[t].TakeFail?) == B(s.pc[t].TakeFail?) + B(FindsEmpty(t, s, s'))
  {
    TakeAccess(s, t, s', once);
  }

  lemma TakeFurther(s: State, s': State, t: Tid, once: bool, v: Value)
    requires Inv(s) && Next(s, s') && Taking(t, once, s) && Stands(s', t, InTake)
    ensures Taking(t, once, s') && (HasTaken(s.pc[t]) ==> HasTaken(s'.pc[t]))
    ensures B(HasTakenThis(v, s'.pc[t])) == B(HasTakenThis(v, s.pc[t])) + B(Removes(t, v, s, s'))
    ensures once ==> B(s'.pc[t].TakeFail?) == B(s.pc[t].TakeFail?) + B(FindsEmpty(t, s, s'))
  {
    var u: Tid :| ActStep(s, u, s') || NotifyStep(s, u, s');
    if u != t {
      Others(s, s', u, t);
    } else if ActStep(s, t, s') {
      AtTheHead(s, t);
      TakeDone(s, t, s', once, v);
    } else {
      TakeNotified(s, t, s', once);
    }
  }

  /** The step with which the call returns. */
  lemma TakeReturns(s: State, s': State, t: Tid, once: bool)
    requires Next(s, s') && Taking(t, once, s) && t < |s'.pc| && !InTake(s'.pc[t])
    ensures s'.pc[t] == Out && (s.pc[t].TakeUnlock? || s.pc[t] == TakeFail(once))
  {
    var u: Tid :| ActStep(s, u, s') || NotifyStep(s, u, s');
    if u != t {
      Others(s, s', u, t);
    } else if ActStep(s, t, s') {
      TakeAccess(s, t, s', once);
    } else {
      TakeNotified(s, t, s', once);
    }
  }

  /** What rel counts is what thread t has done in its call, as where it stands tells. */
  ghost predicate TakeTracks(t: Tid, once: bool, has: PC -> bool, rel: (State, State) -> bool) {
    forall s, s' :: Inv(s) && Taking(t, once, s) && Stands(s', t, InTake) && Next(s, s') ==>
      Taking(t, once, s') && B(has(s'.pc[t])) == B(has(s.pc[t])) + B(rel(s, s'))
  }

  lemma TakeCounts(tr: seq<State>, i: nat, j: nat, t: Tid, once: bool, has: PC -> bool, rel: (State, State) -> bool)
    requires Run(tr) && i < j < |tr| && Taking(t, once, tr[i]) && !has(tr[i].pc[t])
    requires Throughout((s: State) => Stands(s, t, InTake), tr, i, j) && TakeTracks(t, once, has, rel)
    ensures Taking(t, once, tr[j - 1])
    ensures Occurs(rel, tr, i, j) == B(has(tr[j - 1].pc[t])) + B(rel(tr[j - 1], tr[j]))
  {
    var inside, p := (s: State) => Stands(s, t, InTake), (s: State) => Taking(t, once, s);
    var n := (s: State) => if t < |s.pc| then B(has(s.pc[t])) else 0;
    Inductive();
    WholeCall(Init, Next, Inv, inside, p, rel, n, tr, i, j);
  }

  lemma TracksSome(t: Tid, once: bool)
    ensures TakeTracks(t, once, HasTaken, (s, s') => RemovesSome(t, s, s'))
  {
    forall s, s' | Inv(s) && Taking(t, once, s) && Stands(s', t, InTake) && Next(s, s')
      ensures Taking(t, once, s') && |s'.pc| == |s.pc| && (HasTaken(s.pc[t]) ==> HasTaken(s'.pc[t])) {
      TakeFurther(s, s', t, once, 0);
      NextLength(s, s');
    }
  }

  lemma NextLength(s: State, s': State)
    requires Next(s, s')
    ensures |s'.pc| == |s.pc|
  {
    var u: Tid :| ActStep(s, u, s') || NotifyStep(s, u, s');
  }

  lemma TracksThis(t: Tid, once: bool, v: Value)
    ensures TakeTracks(t, once, (p: PC) => HasTakenThis(v, p), (s, s') => Removes(t, v, s, s'))
  {
    forall s, s' | Inv(s) && Taking(t, once, s) && Stands(s', t, InTake) && Next(s, s')
      ensures Taking(t, once, s')
      ensures B(HasTakenThis(v, s'.pc[t])) == B(HasTakenThis(v, s.pc[t])) + B(Removes(t, v, s, s')) {
      TakeFurther(s, s', t, once, v);
    }
  }

  lemma TracksEmpty(t: Tid)
    ensures TakeTracks(t, true, (p: PC) => p.TakeFail?, (s, s') => FindsEmpty(t, s, s'))
  {
    forall s, s' | Inv(s) && Taking(t, true, s) && Stands(s', t, InTake) && Next(s, s')
      ensures Taking(t, true, s') && B(s'.pc[t].TakeFail?) == B(s.pc[t].TakeFail?) + B(FindsEmpty(t, s, s')) {
      TakeFurther(s, s', t, true, 0);
    }
  }

  /** A try_take that fails has found the channel empty. */
  lemma FailsOnEmpty(tr: seq<State>, i: nat, j: nat, t: Tid)
    requires Run(tr) && i < j < |tr| && t < |tr[i].pc| && tr[i].pc[t] == TakeLock(true)
    requires Throughout((s: State) => Stands(s, t, InTake), tr, i, j) && t < |tr[j - 1].pc| && tr[j - 1].pc[t].TakeFail?
    ensures exists k :: i <= k < j && tr[k].h.taken == tr[k].h.accepted
  {
    var finds := (s, s') => FindsEmpty(t, s, s');
    TracksEmpty(t);
    TakeCounts(tr, i, j, t, true, (p: PC) => p.TakeFail?, finds);
    var k := OccursSomewhere(finds, tr, i, j);
    assert tr[k].h.taken == tr[k].h.accepted;
  }

  /** A call of take or try_take that has returned with a value: it has removed exactly that one, the
      first of those left, and no other. One that has failed has removed none: try_take found the
      channel empty, and take found it inactive and drained. */
  lemma TakeExact(tr: seq<State>, i: nat, j: nat, t: Tid, once: bool)
    requires Run(tr) && i < j < |tr| && t < |tr[i].pc| && tr[i].pc[t] == TakeLock(once)
    requires Throughout((s: State) => Stands(s, t, InTake), tr, i, j) && t < |tr[j].pc| && !InTake(tr[j].pc[t])
    ensures tr[j].pc[t] == Out && t < |tr[j - 1].pc|
    ensures var last := tr[j - 1].pc[t];
            && ((last.TakeUnlock? && last.va.Some?) || last == TakeFail(once))
            && Occurs((s, s') => RemovesSome(t, s, s'), tr, i, j) == B(last.TakeUnlock?)
            && (last.TakeUnlock? ==> Occurs((s, s') => Removes(t, last.va.value, s, s'), tr, i, j) == 1)
            && (last == TakeFail(true) ==> exists k :: i <= k < j && tr[k].h.taken == tr[k].h.accepted)
            && (last == TakeFail(false) ==> !tr[j].g.active && tr[j - 1].h.taken == tr[j - 1].h.accepted)
  {
    TakeLast(tr, i, j, t, once);
    var last := tr[j - 1].pc[t];
    TakeSome(tr, i, j, t, once);
    if last.TakeUnlock? { TakeThis(tr, i, j, t, once, last.va.value); }
    if once && last.TakeFail? { FailsOnEmpty(tr, i, j, t); }
  }

  /** The last step of the call. */
  lemma TakeLast(tr: seq<State>, i: nat, j: nat, t: Tid, once: bool)
    requires Run(tr) && i < j < |tr| && t < |tr[i].pc| && tr[i].pc[t] == TakeLock(once)
    requires Throughout((s: State) => Stands(s, t, InTake), tr, i, j) && t < |tr[j].pc| && !InTake(tr[j].pc[t])
    ensures t < |tr[j - 1].pc| && tr[j].pc[t] == Out
    ensures (tr[j - 1].pc[t].TakeUnlock? && tr[j - 1].pc[t].va.Some?) || tr[j - 1].pc[t] == TakeFail(once)
    ensures tr[j - 1].pc[t] == TakeFail(false) ==> !tr[j].g.active && tr[j - 1].h.taken == tr[j - 1].h.accepted
  {
    TracksSome(t, once);
    TakeCounts(tr, i, j, t, once, HasTaken, (s, s') => RemovesSome(t, s, s'));
    RunInv(tr, j - 1);
    TakeEnds(tr[j - 1], tr[j], t, once);
  }

  lemma TakeEnds(s: State, s': State, t: Tid, once: bool)
    requires Inv(s) && Next(s, s') && Taking(t, once, s) && t < |s'.pc| && !InTake(s'.pc[t])
    ensures s'.pc[t] == Out && ((s.pc[t].TakeUnlock? && s.pc[t].va.Some?) || s.pc[t] == TakeFail(once))
    ensures s.pc[t] == TakeFail(false) ==> !s'.g.active && s.h.taken == s.h.accepted
  {
    TakeReturns(s, s', t, once);
    AtTheHead(s, t);
    StaysInactive(s, s');
  }

  lemma TakeSome(tr: seq<State>, i: nat, j: nat, t: Tid, once: bool)
    requires Run(tr) && i < j < |tr| && t < |tr[i].pc| && tr[i].pc[t] == TakeLock(once)
    requires Throughout((s: State) => Stands(s, t, InTake), tr, i, j) && t < |tr[j].pc| && tr[j].pc[t] == Out
    ensures t < |tr[j - 1].pc| && Occurs((s, s') => RemovesSome(t, s, s'), tr, i, j) == B(HasTaken(tr[j - 1].pc[t]))
  {
    TracksSome(t, once);
    TakeCounts(tr, i, j, t, once, HasTaken, (s, s') => RemovesSome(t, s, s'));
  }

  lemma TakeThis(tr: seq<State>, i: nat, j: nat, t: Tid, once: bool, v: Value)
    requires Run(tr) && i < j < |tr| && t < |tr[i].pc| && tr[i].pc[t] == TakeLock(once)
    requires Throughout((s: State) => Stands(s, t, InTake), tr, i, j) && t < |tr[j].pc| && tr[j].pc[t] == Out
    requires t < |tr[j - 1].pc| && HasTakenThis(v, tr[j - 1].pc[t])
    ensures Occurs((s, s') => Removes(t, v, s, s'), tr, i, j) == 1
  {
    TracksThis(t, once, v);
    TakeCounts(tr, i, j, t, once, (p: PC) => HasTakenThis(v, p), (s, s') => Removes(t, v, s, s'));
  }

  // Falling asleep ----------------------------------------------------------------------------------

  lemma SleepAccess(s: State, t: Tid, s': State)
    requires ActStep(s, t, s')
    ensures s'.pc[t].PutSleep? ==> s.pc[t].PutLoopFull? && s.g.count >= s.g.hwm
    ensures s'.pc[t].TakeSleep? ==> s.pc[t].TakeLoopEmpty? && s.h.head == s.h.tail
  {
  }

  lemma SleepsOnly(s: State, s': State, t: Tid)
    requires Inv(s) && Next(s, s') && t < |s.pc| == |s'.pc|
    ensures s'.pc[t].PutSleep? && !s.pc[t].PutSleep? ==> s.g.active && s.g.count >= s.g.hwm
    ensures s'.pc[t].TakeSleep? && !s.pc[t].TakeSleep? ==> s.g.active && s.h.taken == s.h.accepted
  {
    AtTheHead(s, t);
    var u: Tid :| ActStep(s, u, s') || NotifyStep(s, u, s');
    if u != t {
      Others(s, s', u, t);
    } else if ActStep(s, t, s') {
      SleepAccess(s, t, s');
    }
  }

  /** put goes to sleep only on an active channel that it finds full, and take only on an active
      channel that it finds empty. */
  lemma SleepsExact(tr: seq<State>, i: nat, t: Tid)
    requires Run(tr) && i + 1 < |tr| && t < |tr[i].pc| == |tr[i + 1].pc|
    ensures tr[i + 1].pc[t].PutSleep? && !tr[i].pc[t].PutSleep? ==> tr[i].g.active && tr[i].g.count >= tr[i].g.hwm
    ensures tr[i + 1].pc[t].TakeSleep? && !tr[i].pc[t].TakeSleep? ==>
              tr[i].g.active && tr[i].h.taken == tr[i].h.accepted
  {
    RunInv(tr, i);
    SleepsOnly(tr[i], tr[i + 1], t);
  }

  // deactivate ------------------------------------------------------------------------------------

  predicate InStop(p: PC) {
    || p.StopHead? || p.StopTail? || p.StopNotEmpty? || p.StopNotFull? || p.StopStore? || p.StopUnlockTail?
    || p.StopUnlockHead?
  }

  predicate Stopping(t: Tid, s: State) {
    t < |s.pc| && InStop(s.pc[t]) && (s.pc[t].StopUnlockTail? || s.pc[t].StopUnlockHead? ==> !s.g.active)
  }

  lemma StopFurther(s: State, s': State, t: Tid)
    requires Next(s, s') && Stopping(t, s) && t < |s'.pc|
    ensures if InStop(s'.pc[t]) then Stopping(t, s') else s'.pc[t] == Out && !s'.g.active
  {
    StaysInactive(s, s');
    var u: Tid :| ActStep(s, u, s') || NotifyStep(s, u, s');
    if u != t {
      Others(s, s', u, t);
    } else if ActStep(s, t, s') {
      StopAccess(s, t, s');
    }
  }

  lemma StopAccess(s: State, t: Tid, s': State)
    requires ActStep(s, t, s') && Stopping(t, s) && (s'.g.active ==> s.g.active)
    ensures if InStop(s'.pc[t]) then Stopping(t, s') else s'.pc[t] == Out && !s'.g.active
  {
  }

  /** A call of deactivate that has returned has made the channel inactive. */
  lemma StopExact(tr: seq<State>, i: nat, j: nat, t: Tid)
    requires Run(tr) && i < j < |tr| && t < |tr[i].pc| && tr[i].pc[t] == StopHead
    requires Throughout((s: State) => Stands(s, t, InStop), tr, i, j) && t < |tr[j].pc| && !InStop(tr[j].pc[t])
    ensures tr[j].pc[t] == Out && !tr[j].g.active
  {
    var inside, p := (s: State) => Stands(s, t, InStop), (s: State) => Stopping(t, s);
    var never, zero := (s: State, s': State) => false, (s: State) => 0;
    Inductive();
    forall s, s' | inside(s') && p(s) && Next(s, s') ensures p(s') { StopFurther(s, s', t); }
    WholeCall(Init, Next, Inv, inside, p, never, zero, tr, i, j);
    StopFurther(tr[j - 1], tr[j], t);
  }
}
