/** The spin condition variable refines the textbook one: a wait gives up the caller's mutex
    and falls asleep in one step, notify_one owes a wake-up to one of the sleepers, notify_all
    wakes all of them at once, and a notification while nobody sleeps does nothing. */
module WaitNotify {
  import opened Condition
  import opened Counting
  import opened Runs

  datatype Phase = Elsewhere | Sleeping | Notified

  /** The caller's mutex, an undelivered notify_one, and where every thread is. */
  datatype Spec = Spec(locked: bool, owed: bool, phase: seq<Phase>)

  ghost predicate SpecInit(a: Spec) {
    !a.locked && !a.owed && forall t :: 0 <= t < |a.phase| ==> a.phase[t] == Elsewhere
  }

  predicate SomeSleep(a: Spec) { exists u :: 0 <= u < |a.phase| && a.phase[u] == Sleeping }

  function WakeAll(phase: seq<Phase>): seq<Phase> {
    seq(|phase|, i requires 0 <= i < |phase| => if phase[i] == Sleeping then Notified else phase[i])
  }

  datatype Label = Nothing | Lock | Unlock | Sleep | TimeOut | Deliver | Return | One | All

  /** What thread t may do. */
  ghost predicate SpecStep(a: Spec, t: Tid, l: Label, b: Spec) {
    && t < |a.phase|
    && match l
       case Nothing => b == a
       case Lock => !a.locked && a.phase[t] == Elsewhere && b == a.(locked := true)
       case Unlock => a.locked && a.phase[t] == Elsewhere && b == a.(locked := false)
       case Sleep =>
         && a.locked && !a.owed && a.phase[t] == Elsewhere
         && b == a.(locked := false, phase := a.phase[t := Sleeping])
       case TimeOut => !a.owed && a.phase[t] == Sleeping && b == a.(phase := a.phase[t := Notified])
       case Deliver => a.owed && a.phase[t] == Sleeping && b == a.(owed := false, phase := a.phase[t := Notified])
       case Return =>
         !a.locked && a.phase[t] == Notified && b == a.(locked := true, phase := a.phase[t := Elsewhere])
       case One => !a.owed && SomeSleep(a) && b == a.(owed := true)
       case All => !a.owed && SomeSleep(a) && b == a.(phase := WakeAll(a.phase))
  }

  ghost predicate SpecNext(a: Spec, b: Spec) { exists t: Tid, l :: SpecStep(a, t, l, b) }

  // The refinement ------------------------------------------------------------------------

  /** Has been released or has timed out, and is on its way back to the caller's mutex. */
  predicate GoesBack(p: PC) { p.CountOne? || p.Reset? || p.Leave? || p.HandBack? || p.Relock? || p.CountExpired? }

  function PhaseOf(p: PC, all: bool): Phase {
    if Asleep(p) then if all then Notified else Sleeping
    else if GoesBack(p) then Notified
    else Elsewhere
  }

  function Abs(s: State): Spec {
    Spec(s.g.caller, s.g.cmd == NOTIFY_ONE,
         seq(|s.pc|, i requires 0 <= i < |s.pc| => PhaseOf(s.pc[i], s.g.cmd == NOTIFY_ALL)))
  }

  /** What the access of a thread at p, to p', means. */
  function LabelOf(g: Shared, p: PC, p': PC): Label {
    if p.Out? && p'.Held? then Lock
    else if p.Held? && p'.Out? then Unlock
    else if p.GiveUp? then Sleep
    else if p.Expired? && p'.CountExpired? then TimeOut
    else if p.Consume? && g.cmd == NOTIFY_ONE then Deliver
    else if p.Relock? then Return
    else if p.Publish? && g.cmd == SLEEPING then if p.cmd == NOTIFY_ONE then One else All
    else Nothing
  }

  /** What an access means for the thread itself. */
  ghost predicate Fits(g: Shared, p: PC, g': Shared, p': PC, l: Label) {
    var all, all' := g.cmd == NOTIFY_ALL, g'.cmd == NOTIFY_ALL;
    var x, x' := PhaseOf(p, all), PhaseOf(p', all');
    && g'.caller == (if l.Lock? || l.Return? then true else if l.Unlock? || l.Sleep? then false else g.caller)
    && (l.Lock? || l.Return? ==> !g.caller) && (l.Unlock? || l.Sleep? ==> g.caller)
    && (g'.cmd == NOTIFY_ONE) == (if l.One? then true else if l.Deliver? then false else g.cmd == NOTIFY_ONE)
    && (l.Sleep? || l.TimeOut? || l.One? || l.All? ==> g.cmd == SLEEPING) && (l.Deliver? ==> g.cmd == NOTIFY_ONE)
    && (if l.Sleep? then x == Elsewhere && x' == Sleeping
        else if l.TimeOut? || l.Deliver? then x == Sleeping && x' == Notified
        else if l.Return? then x == Notified && x' == Elsewhere
        else x' == x && (l.Lock? || l.Unlock? || l.One? || l.All? ==> x == Elsewhere))
    && (l.All? ==> all' && !all) && (all' != all && !l.All? ==> p.Reset?)
  }

  lemma CallFits(g: Shared, p: PC, g': Shared, p': PC)
    requires CallStep(g, p, g', p') && Local(g, p) && Owns(g, p)
    ensures Fits(g, p, g', p', LabelOf(g, p, p'))
  {
  }

  lemma EntryFits(g: Shared, p: PC, g': Shared, p': PC)
    requires EntryStep(g, p, g', p') && Local(g, p) && Owns(g, p)
    ensures Fits(g, p, g', p', LabelOf(g, p, p'))
  {
  }

  lemma TakeFits(g: Shared, p: PC, g': Shared, p': PC)
    requires TakeStep(g, p, g', p') && Local(g, p) && Owns(g, p)
    ensures Fits(g, p, g', p', LabelOf(g, p, p'))
  {
  }

  lemma LeaveFits(g: Shared, p: PC, g': Shared, p': PC)
    requires LeaveStep(g, p, g', p') && Local(g, p) && Owns(g, p)
    ensures Fits(g, p, g', p', LabelOf(g, p, p'))
  {
  }

  lemma NotifyFits(g: Shared, p: PC, g': Shared, p': PC)
    requires NotifyStep(g, p, g', p') && Local(g, p) && Owns(g, p)
    ensures Fits(g, p, g', p', LabelOf(g, p, p'))
  {
  }

  lemma ActFits(g: Shared, p: PC, g': Shared, p': PC)
    requires Act(g, p, g', p') && Local(g, p) && Owns(g, p)
    ensures Fits(g, p, g', p', LabelOf(g, p, p'))
  {
    if p.Out? || p.Held? {
      CallFits(g, p, g', p');
    } else if p.Notify? || p.Load? || p.Skip? || p.Publish? {
      NotifyFits(g, p, g', p');
    } else if p.Enter? || InEntry(p) || p.Spin? || p.Expired? {
      EntryFits(g, p, g', p');
    } else if p.Check? || (InCheck(p) && !p.Leave?) {
      TakeFits(g, p, g', p');
    } else {
      LeaveFits(g, p, g', p');
    }
  }

  /** A published command finds a sleeper: whoever is counted and does not carry the baton. */
  lemma PublishedFor(s: State, t: Tid)
    requires Inv(s) && t < |s.pc| && s.pc[t].Publish?
    ensures SomeSleep(Abs(s))
  {
    assert Local(s.g, s.pc[t]);
    BatonAlone(s, t);
    var u := CountWitness(s.pc, Counted);
    assert Abs(s).phase[u] == Sleeping;
  }

  /** cmd_ goes back from NOTIFY_ALL to SLEEPING only when nobody waits any more. */
  lemma ResetFindsNobody(s: State, t: Tid)
    requires Inv(s) && t < |s.pc| && s.pc[t].Reset?
    ensures forall u :: 0 <= u < |s.pc| ==> !Asleep(s.pc[u])
  {
    assert Local(s.g, s.pc[t]);
    CountedThreads(s);
  }

  /** The phases of the other threads change only by notify_all. */
  lemma OthersPhase(s: State, t: Tid, s': State, u: Tid)
    requires Inv(s) && t < |s.pc| && Moved(s, t, s') && u < |s.pc| && u != t
    requires Fits(s.g, s.pc[t], s'.g, s'.pc[t], LabelOf(s.g, s.pc[t], s'.pc[t]))
    ensures var l := LabelOf(s.g, s.pc[t], s'.pc[t]);
            Abs(s').phase[u] == if l.All? then WakeAll(Abs(s).phase)[u] else Abs(s).phase[u]
  {
    if s.pc[t].Reset? { ResetFindsNobody(s, t); }
  }

  lemma PhasesAfter(s: State, t: Tid, s': State)
    requires Inv(s) && t < |s.pc| && Moved(s, t, s')
    requires Fits(s.g, s.pc[t], s'.g, s'.pc[t], LabelOf(s.g, s.pc[t], s'.pc[t]))
    ensures var a, b := Abs(s), Abs(s');
            b.phase == if LabelOf(s.g, s.pc[t], s'.pc[t]).All? then WakeAll(a.phase) else a.phase[t := b.phase[t]]
  {
    var l := LabelOf(s.g, s.pc[t], s'.pc[t]);
    var a, b := Abs(s), Abs(s');
    forall u | 0 <= u < |s.pc| && u != t
      ensures b.phase[u] == if l.All? then WakeAll(a.phase)[u] else a.phase[u] {
      OthersPhase(s, t, s', u);
    }
  }

  /** A step of the specification, put together from its parts. */
  lemma Compose(g: Shared, p: PC, g': Shared, p': PC, a: Spec, t: Tid, b: Spec)
    requires t < |a.phase| == |b.phase| && Fits(g, p, g', p', LabelOf(g, p, p'))
    requires a.locked == g.caller && b.locked == g'.caller
    requires a.owed == (g.cmd == NOTIFY_ONE) && b.owed == (g'.cmd == NOTIFY_ONE)
    requires a.phase[t] == PhaseOf(p, g.cmd == NOTIFY_ALL) && b.phase[t] == PhaseOf(p', g'.cmd == NOTIFY_ALL)
    requires b.phase == if LabelOf(g, p, p').All? then WakeAll(a.phase) else a.phase[t := b.phase[t]]
    requires p.Publish? ==> SomeSleep(a)
    ensures SpecStep(a, t, LabelOf(g, p, p'), b)
  {
    assert a.phase[t := a.phase[t]] == a.phase;
  }

  /** Every access of wait, timed_wait and notify_ is one step of the textbook condition
      variable, or none. */
  lemma Refines(s: State, t: Tid, s': State)
    requires Inv(s) && t < |s.pc| && Step(s, t, s')
    ensures SpecStep(Abs(s), t, LabelOf(s.g, s.pc[t], s'.pc[t]), Abs(s'))
  {
    StepFits(s, t, s');
    PhasesAfter(s, t, s');
    if s.pc[t].Publish? { PublishedFor(s, t); }
    Compose(s.g, s.pc[t], s'.g, s'.pc[t], Abs(s), t, Abs(s'));
  }

  lemma StepFits(s: State, t: Tid, s': State)
    requires Inv(s) && t < |s.pc| && Step(s, t, s')
    ensures Moved(s, t, s') && Fits(s.g, s.pc[t], s'.g, s'.pc[t], LabelOf(s.g, s.pc[t], s'.pc[t]))
  {
    StepSound(s, t, s');
    ActFits(s.g, s.pc[t], s'.g, s'.pc[t]);
  }

  /** A notification that is dropped finds nobody asleep. */
  lemma DroppedForNobody(s: State, t: Tid, s': State)
    requires Inv(s) && t < |s.pc| && Step(s, t, s') && s.pc[t].Load? && s'.pc[t].Skip?
    ensures !SomeSleep(Abs(s)) && Abs(s') == Abs(s)
  {
    CountedThreads(s);
    Refines(s, t, s');
  }

  /** Every run of the spin condition variable is a run of the textbook one. */
  lemma RefinesRun(tr: seq<State>)
    requires Run(tr)
    ensures IsRun(SpecInit, SpecNext, Image(Abs, tr))
  {
    forall s | Init(s) ensures Inv(s) && SpecInit(Abs(s)) { InitInv(s); }
    forall s, s' | Inv(s) && Next(s, s') ensures Inv(s') && SpecNext(Abs(s), Abs(s')) {
      NextInv(s, s');
      RefinesStep(s, s');
    }
    MapRun(Init, Next, Inv, Abs, SpecInit, SpecNext, tr);
  }

  lemma RefinesStep(s: State, s': State)
    requires Inv(s) && Next(s, s')
    ensures SpecNext(Abs(s), Abs(s'))
  {
    var t: Tid :| t < |s.pc| && Step(s, t, s');
    Refines(s, t, s');
  }
}
