/** Whole calls of the spin condition variable, however they interleave with others: what a wait
    that returns has been through, and which command a notification publishes. */
module ConditionCalls {
  import opened Condition
  import opened Counting
  import opened Runs

  // wait and timed_wait ---------------------------------------------------------------------

  /** Inside a call of wait or timed_wait. */
  predicate InWait(p: PC) {
    !p.Out? && !p.Held? && !p.Notify? && !p.Load? && !p.Skip? && !p.Publish?
  }

  predicate Waits(s: State, t: Tid) { t < |s.pc| && InWait(s.pc[t]) }

  /** A call with this `timed` can stand at p: only timed_wait comes to a time-out. */
  predicate Called(timed: bool, p: PC) {
    match p
    case Enter(d) => d == timed
    case Register(d) => d == timed
    case GiveUp(d) => d == timed
    case LeaveEntry(d) => d == timed
    case Spin(d) => d == timed
    case Check(d) => d == timed
    case Consume(d) => d == timed
    case Retry(d) => d == timed
    case Expired => timed
    case CountExpired => timed
    case HandBack(ok) => ok || timed
    case Relock(ok) => ok || timed
    case _ => true
  }

  /** The last published command releases thread t. */
  ghost predicate Frees(t: Tid, s: State, s': State) {
    && |s'.h.log| == |s.h.log| > 0
    && t !in s.h.log[|s.h.log| - 1].released && t in s'.h.log[|s.h.log| - 1].released
  }

  /** Thread t, whose time is over, wins enter_mtx_. */
  predicate TimesOut(t: Tid, s: State, s': State) {
    t < |s.pc| == |s'.pc| && s.pc[t] == Expired && s'.pc[t] == CountExpired
  }

  /** Thread t gives up the caller's mutex. */
  predicate GivesUp(t: Tid, s: State, s': State) {
    t < |s.pc| == |s'.pc| && s'.pc[t] != s.pc[t] && s.g.caller && !s'.g.caller
  }

  predicate HasFreed(p: PC) { p.CountOne? || p.Reset? || p.Leave? || ((p.HandBack? || p.Relock?) && p.ok) }

  predicate HasExpired(p: PC) { p.CountExpired? || ((p.HandBack? || p.Relock?) && !p.ok) }

  predicate HasGivenUp(p: PC) { !p.Enter? && !p.Register? && !p.GiveUp? }

  /** The next access of a thread inside its call. */
  lemma OwnAccess(g: Shared, p: PC, g': Shared, p': PC, timed: bool)
    requires Act(g, p, g', p') && InWait(p) && Called(timed, p) && InWait(p')
    ensures Called(timed, p')
  {
  }

  lemma LastAccess(g: Shared, p: PC, g': Shared, p': PC)
    requires Act(g, p, g', p') && InWait(p) && !InWait(p')
    ensures p.Relock? && p' == Held && g'.caller && !g.caller
  {
  }

  lemma OwnFreed(g: Shared, p: PC, g': Shared, p': PC)
    requires Act(g, p, g', p') && InWait(p) && InWait(p')
    ensures B(HasFreed(p')) == B(HasFreed(p)) + B(Releases(g, p))
  {
  }

  lemma OwnExpired(g: Shared, p: PC, g': Shared, p': PC)
    requires Act(g, p, g', p') && InWait(p) && InWait(p')
    ensures B(HasExpired(p')) == B(HasExpired(p)) + B(p == Expired && p' == CountExpired)
  {
  }

  lemma OwnGivenUp(g: Shared, p: PC, g': Shared, p': PC)
    requires Act(g, p, g', p') && InWait(p) && InWait(p') && (OwnsCaller(p) ==> g.caller)
    ensures B(HasGivenUp(p')) == B(HasGivenUp(p)) + B(p' != p && g.caller && !g'.caller)
  {
  }

  /** Whom a step releases: the thread that makes it. */
  lemma WhoIsFreed(s: State, u: Tid, s': State, t: Tid)
    requires Inv(s) && u < |s.pc| && Step(s, u, s') && t < |s.pc|
    ensures Frees(t, s, s') <==> u == t && Releases(s.g, s.pc[t])
  {
    if Releases(s.g, s.pc[u]) {
      assert Waiting(s.pc[u]) && u in Waiters(s);
      assert LogInv(s.h.log, s.g.cmd, Waiters(s)) && Local(s.g, s.pc[u]);
    }
  }

  lemma OwnDoes(s: State, t: Tid, s': State)
    requires Counts(s) && t < |s.pc| && Step(s, t, s') && InWait(s.pc[t]) && InWait(s'.pc[t])
    ensures B(HasFreed(s'.pc[t])) == B(HasFreed(s.pc[t])) + B(Releases(s.g, s.pc[t]))
    ensures B(HasExpired(s'.pc[t])) == B(HasExpired(s.pc[t])) + B(TimesOut(t, s, s'))
    ensures B(HasGivenUp(s'.pc[t])) == B(HasGivenUp(s.pc[t])) + B(GivesUp(t, s, s'))
  {
    if OwnsCaller(s.pc[t]) { OwnsItsMutex(s, t); }
    OwnFreed(s.g, s.pc[t], s'.g, s'.pc[t]);
    OwnExpired(s.g, s.pc[t], s'.g, s'.pc[t]);
    OwnGivenUp(s.g, s.pc[t], s'.g, s'.pc[t]);
  }

  /** One step of anybody, while thread t is inside its call. */
  lemma WaitFurther(s: State, s': State, t: Tid, timed: bool)
    requires Inv(s) && Next(s, s') && Waits(s, t) && Called(timed, s.pc[t]) && Waits(s', t)
    ensures Called(timed, s'.pc[t])
    ensures B(HasFreed(s'.pc[t])) == B(HasFreed(s.pc[t])) + B(Frees(t, s, s'))
    ensures B(HasExpired(s'.pc[t])) == B(HasExpired(s.pc[t])) + B(TimesOut(t, s, s'))
    ensures B(HasGivenUp(s'.pc[t])) == B(HasGivenUp(s.pc[t])) + B(GivesUp(t, s, s'))
  {
    var u: Tid :| u < |s.pc| && Step(s, u, s');
    WhoIsFreed(s, u, s', t);
    if u == t {
      OwnAccess(s.g, s.pc[t], s'.g, s'.pc[t], timed);
      OwnDoes(s, t, s');
    } else {
      OthersStay(s, u, s', t);
    }
  }

  lemma OthersStay(s: State, u: Tid, s': State, t: Tid)
    requires u < |s.pc| && Step(s, u, s') && t < |s.pc| && t != u
    ensures |s'.pc| == |s.pc| && s'.pc[t] == s.pc[t]
  {
  }

  lemma OwnsItsMutex(s: State, t: Tid)
    requires Counts(s) && t < |s.pc| && OwnsCaller(s.pc[t])
    ensures s.g.caller
  {
    CountHas(s.pc, t, OwnsCaller);
  }

  /** The step with which the call returns. */
  lemma WaitReturns(s: State, s': State, t: Tid, timed: bool)
    requires Inv(s) && Next(s, s') && Waits(s, t) && Called(timed, s.pc[t]) && t < |s'.pc| && !InWait(s'.pc[t])
    ensures s.pc[t].Relock? && s'.pc[t] == Held && s'.g.caller
    ensures !Frees(t, s, s') && !TimesOut(t, s, s') && !GivesUp(t, s, s')
  {
    var u: Tid :| u < |s.pc| && Step(s, u, s');
    WhoIsFreed(s, u, s', t);
    LastAccess(s.g, s.pc[t], s'.g, s'.pc[t]);
  }

  lemma Inductive()
    ensures forall s :: Init(s) ==> Inv(s)
    ensures forall s, s' :: Inv(s) && Next(s, s') ==> Inv(s')
  {
    forall s | Init(s) ensures Inv(s) { InitInv(s); }
    forall s, s' | Inv(s) && Next(s, s') ensures Inv(s') { NextInv(s, s'); }
  }

  /** Thread t is in its call with this `timed`. */
  predicate InCall(t: Tid, timed: bool, s: State) { Waits(s, t) && Called(timed, s.pc[t]) }

  /** What rel counts is what thread t has been through, as where it stands tells. */
  ghost predicate Tracks(t: Tid, timed: bool, has: PC -> bool, rel: (State, State) -> bool) {
    forall s, s' :: Inv(s) && InCall(t, timed, s) && Waits(s', t) && Next(s, s') ==>
      InCall(t, timed, s') && B(has(s'.pc[t])) == B(has(s.pc[t])) + B(rel(s, s'))
  }

  lemma WaitCounts(tr: seq<State>, i: nat, j: nat, t: Tid, timed: bool, has: PC -> bool, rel: (State, State) -> bool)
    requires Run(tr) && i < j < |tr| && t < |tr[i].pc| && tr[i].pc[t] == Enter(timed)
    requires Throughout((s: State) => Waits(s, t), tr, i, j) && Tracks(t, timed, has, rel)
    ensures Inv(tr[j - 1]) && InCall(t, timed, tr[j - 1]) && Next(tr[j - 1], tr[j])
    ensures B(has(Enter(timed))) + Occurs(rel, tr, i, j) == B(has(tr[j - 1].pc[t])) + B(rel(tr[j - 1], tr[j]))
  {
    var inside, p := (s: State) => Waits(s, t), (s: State) => InCall(t, timed, s);
    var n := (s: State) => if t < |s.pc| then B(has(s.pc[t])) else 0;
    Inductive();
    WholeCall(Init, Next, Inv, inside, p, rel, n, tr, i, j);
  }

  lemma WaitCounted(t: Tid, timed: bool)
    ensures Tracks(t, timed, HasFreed, (s, s') => Frees(t, s, s'))
    ensures Tracks(t, timed, HasExpired, (s, s') => TimesOut(t, s, s'))
    ensures Tracks(t, timed, HasGivenUp, (s, s') => GivesUp(t, s, s'))
  {
    forall s, s' | Inv(s) && InCall(t, timed, s) && Waits(s', t) && Next(s, s')
      ensures InCall(t, timed, s')
      ensures B(HasFreed(s'.pc[t])) == B(HasFreed(s.pc[t])) + B(Frees(t, s, s'))
      ensures B(HasExpired(s'.pc[t])) == B(HasExpired(s.pc[t])) + B(TimesOut(t, s, s'))
      ensures B(HasGivenUp(s'.pc[t])) == B(HasGivenUp(s.pc[t])) + B(GivesUp(t, s, s')) {
      WaitFurther(s, s', t, timed);
    }
  }

  /** A call of wait or timed_wait that has returned: thread t gave up the caller's mutex once and
      owns it again; it was released by a command exactly once, and that is when it returns true,
      or it timed out exactly once; and without a time-out given it was released. */
  lemma WaitExact(tr: seq<State>, i: nat, j: nat, t: Tid, timed: bool)
    requires Run(tr) && i < j < |tr| && t < |tr[i].pc| && tr[i].pc[t] == Enter(timed)
    requires Throughout((s: State) => Waits(s, t), tr, i, j) && t < |tr[j].pc| && !InWait(tr[j].pc[t])
    ensures tr[j].pc[t] == Held && tr[j].g.caller && t < |tr[j - 1].pc| && tr[j - 1].pc[t].Relock?
    ensures Occurs((s, s') => GivesUp(t, s, s'), tr, i, j) == 1
    ensures Occurs((s, s') => Frees(t, s, s'), tr, i, j) == B(tr[j - 1].pc[t].ok)
    ensures Occurs((s, s') => TimesOut(t, s, s'), tr, i, j) == B(!tr[j - 1].pc[t].ok)
    ensures !timed ==> tr[j - 1].pc[t].ok
  {
    var frees, timesOut := (s, s') => Frees(t, s, s'), (s, s') => TimesOut(t, s, s');
    var givesUp := (s, s') => GivesUp(t, s, s');
    WaitCounted(t, timed);
    WaitCounts(tr, i, j, t, timed, HasFreed, frees);
    WaitCounts(tr, i, j, t, timed, HasExpired, timesOut);
    WaitCounts(tr, i, j, t, timed, HasGivenUp, givesUp);
    WaitReturns(tr[j - 1], tr[j], t, timed);
  }

  // notify_one and notify_all ------------------------------------------------------------------

  predicate Notifies(s: State, n: Tid) { n < |s.pc| && (s.pc[n].Notify? || InNotify(s.pc[n])) }

  /** A call with this command, by a thread that owns the caller's mutex or not. */
  predicate Announces(c: Command, held: bool, p: PC) {
    match p
    case Notify(d, h) => d == c && h == held
    case Load(d, h) => d == c && h == held
    case Publish(d, h) => d == c && h == held
    case Skip(h) => h == held
    case _ => false
  }

  /** Thread n is about to drop its notification, because nobody waits. */
  ghost predicate Drops(n: Tid, s: State, s': State) {
    n < |s.pc| == |s'.pc| && !s.pc[n].Skip? && s'.pc[n].Skip? && Waiters(s) == {}
  }

  lemma NotifyAccess(g: Shared, p: PC, g': Shared, p': PC, c: Command, held: bool)
    requires Act(g, p, g', p') && Announces(c, held, p)
    ensures Announces(c, held, p')
         || (p' == Home(held) && (p.Skip? || (p.Publish? && g.cmd == SLEEPING && g'.cmd == c)))
    ensures p'.Skip? && !p.Skip? ==> g.waiters == 0
  {
  }

  lemma NotifyFurther(s: State, s': State, n: Tid, c: Command, held: bool)
    requires Inv(s) && Next(s, s') && Notifies(s, n) && Announces(c, held, s.pc[n]) && Notifies(s', n)
    ensures Announces(c, held, s'.pc[n]) && B(s'.pc[n].Skip?) == B(s.pc[n].Skip?) + B(Drops(n, s, s'))
  {
    var u: Tid :| u < |s.pc| && Step(s, u, s');
    if u == n {
      CountedThreads(s);
      NotifyAccess(s.g, s.pc[n], s'.g, s'.pc[n], c, held);
    }
  }

  /** The step with which the call ends. */
  lemma NotifyReturns(s: State, s': State, n: Tid, c: Command, held: bool)
    requires Inv(s) && Next(s, s') && Notifies(s, n) && Announces(c, held, s.pc[n]) && n < |s'.pc| && !Notifies(s', n)
    ensures s'.pc[n] == Home(held) && (s.pc[n].Publish? || s.pc[n].Skip?)
    ensures s.pc[n].Publish? ==> s'.g.cmd == c && s'.h.log == s.h.log + [Notice(c, Waiters(s), {})]
    ensures s.pc[n].Skip? ==> s'.h.log == s.h.log
  {
    var u: Tid :| u < |s.pc| && Step(s, u, s');
    NotifyAccess(s.g, s.pc[n], s'.g, s'.pc[n], c, held);
  }

  /** A call of notify_one or notify_all that has returned: it published the command it is called
      for, to all who waited then; or it found nobody waiting, and published nothing. */
  lemma NotifyExact(tr: seq<State>, i: nat, j: nat, n: Tid, c: Command, held: bool)
    requires Run(tr) && i < j < |tr| && n < |tr[i].pc| && tr[i].pc[n] == Notify(c, held)
    requires Throughout((s: State) => Notifies(s, n), tr, i, j) && n < |tr[j].pc| && !Notifies(tr[j], n)
    ensures tr[j].pc[n] == Home(held) && n < |tr[j - 1].pc|
    ensures var s, s' := tr[j - 1], tr[j];
            if s.pc[n].Publish? then s'.g.cmd == c && s'.h.log == s.h.log + [Notice(c, Waiters(s), {})]
            else s'.h.log == s.h.log && exists k :: i <= k < j && Waiters(tr[k]) == {}
  {
    var inside, p := (s: State) => Notifies(s, n), (s: State) => Notifies(s, n) && Announces(c, held, s.pc[n]);
    var rel, skips := (s, s') => Drops(n, s, s'), (s: State) => if n < |s.pc| then B(s.pc[n].Skip?) else 0;
    Inductive();
    forall s, s' | Inv(s) && inside(s) && inside(s') && p(s) && Next(s, s')
      ensures p(s') && skips(s') == skips(s) + if rel(s, s') then 1 else 0 {
      NotifyFurther(s, s', n, c, held);
    }
    WholeCall(Init, Next, Inv, inside, p, rel, skips, tr, i, j);
    NotifyReturns(tr[j - 1], tr[j], n, c, held);
    if tr[j - 1].pc[n].Skip? {
      var k := OccursSomewhere(rel, tr, i, j);
      assert Waiters(tr[k]) == {};
    }
  }

  /** The k-th command published, and to whom, is as recorded. */
  ghost predicate Recorded(k: nat, c: Command, waiting: set<Tid>, s: State) {
    k < |s.h.log| && s.h.log[k].cmd == c && s.h.log[k].waiting == waiting
  }

  lemma RecordKept(k: nat, c: Command, waiting: set<Tid>, s: State, s': State)
    requires Recorded(k, c, waiting, s) && Next(s, s')
    ensures Recorded(k, c, waiting, s')
  {
  }

  /** What becomes of a published command: once cmd_ is SLEEPING again, a notify_all has released
      exactly those who waited when it was published, and a notify_one exactly one of them. */
  lemma NotifyReleases(tr: seq<State>, i: nat, j: nat, n: Tid, c: Command, held: bool, k: nat)
    requires Run(tr) && i < j <= k < |tr| && n < |tr[i].pc| && tr[i].pc[n] == Notify(c, held)
    requires Throughout((s: State) => Notifies(s, n), tr, i, j) && n < |tr[j].pc| && !Notifies(tr[j], n)
    requires n < |tr[j - 1].pc| && tr[j - 1].pc[n].Publish? && tr[k].g.cmd == SLEEPING
    ensures var m := |tr[j - 1].h.log|;
            && m < |tr[k].h.log| && tr[k].h.log[m].waiting == Waiters(tr[j - 1])
            && (c == NOTIFY_ALL ==> tr[k].h.log[m].released == Waiters(tr[j - 1]))
            && (c == NOTIFY_ONE ==> tr[k].h.log[m].released <= Waiters(tr[j - 1]) && |tr[k].h.log[m].released| == 1)
  {
    var m, waiting := |tr[j - 1].h.log|, Waiters(tr[j - 1]);
    NotifyExact(tr, i, j, n, c, held);
    RecordedForever(tr, j, k, m, c, waiting);
    ExactRelease(tr, k);
    assert Complete(tr[k].h.log[m]);
  }

  lemma RecordedForever(tr: seq<State>, j: nat, k: nat, m: nat, c: Command, waiting: set<Tid>)
    requires Run(tr) && j <= k < |tr| && Recorded(m, c, waiting, tr[j])
    ensures Recorded(m, c, waiting, tr[k])
  {
    var recorded := (s: State) => Recorded(m, c, waiting, s);
    Inductive();
    forall s, s' | Inv(s) && Next(s, s') && recorded(s) ensures recorded(s') { RecordKept(m, c, waiting, s, s'); }
    Forever(Init, Next, Inv, recorded, tr, j, k);
  }
}
