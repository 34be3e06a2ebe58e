/** Whole calls of wait, post and deactivate of the fast semaphore, however they interleave. */
module SemaphoreCalls {
  import opened Counting
  import opened FastSemaphore
  import opened Runs

  lemma Inductive()
    ensures forall s :: Init(s) ==> Inv(s)
    ensures forall s, s' :: Inv(s) && Next(s, s') ==> Inv(s')
  {
    forall s | Init(s) ensures Inv(s) { InitInv(s); }
    forall s, s' | Inv(s) && Next(s, s') ensures Inv(s') { NextInv(s, s'); }
  }

  predicate Stands(s: State, t: Tid, inside: PC -> bool) { t < |s.pc| && inside(s.pc[t]) }

  // wait ------------------------------------------------------------------------------------------

  predicate InWait(p: PC) {
    || p.SpinTest? || p.Subtract? || p.Decide? || p.Block?
    || ((p.TryLoad? || p.TryActive? || p.TryCas?) && p.who.InWait?)
  }

  /** Thread t takes one from sem_count_. */
  predicate Lowers(t: Tid, s: State, s': State) {
    t < |s.pc| == |s'.pc| && s'.pc[t] != s.pc[t] && s'.g.count == s.g.count - 1
  }

  /** Thread t begins an attempt to get through without blocking. */
  predicate Attempts(t: Tid, s: State, s': State) {
    t < |s.pc| == |s'.pc| && s.pc[t].SpinTest? && s'.pc[t].TryLoad?
  }

  /** How many attempts a thread at p has before it. */
  function AttemptsLeft(p: PC): nat {
    match p
    case SpinTest(n) => n
    case TryLoad(who) => if who.InWait? then who.spins else 0
    case TryActive(who, _) => if who.InWait? then who.spins else 0
    case TryCas(who, _) => if who.InWait? then who.spins else 0
    case _ => 0
  }

  predicate Committed(p: PC) { p.Decide? || p.Block? }

  /** How a wait gets through: by an attempt that finds a positive count, because the count is not
      negative after all, because the semaphore is inactive, or with a kernel token. */
  predicate Passes(g: Shared, p: PC, g': Shared) {
    || (p.TryCas? && g.count > 0 && g' == g.(count := g.count - 1))
    || (p.Subtract? && g.count >= 0 && g' == g.(count := g.count - 1))
    || (p.Decide? && !g.active && g' == g)
    || (p.Block? && g.kernel > 0 && g' == g.(kernel := g.kernel - 1))
  }

  lemma WaitAccess(g: Shared, p: PC, g': Shared, p': PC)
    requires Act(g, p, g', p') && InWait(p) && (p.TryCas? ==> p.seen > 0)
    ensures InWait(p') ==> B(Committed(p')) == B(Committed(p)) + B(p' != p && g'.count == g.count - 1)
    ensures InWait(p') ==> AttemptsLeft(p') + B(p.SpinTest? && p'.TryLoad?) == AttemptsLeft(p)
    ensures !InWait(p') ==> p' == Idle && Passes(g, p, g') && (!p.TryCas? ==> AttemptsLeft(p) == 0)
  {
  }

  lemma WaitFurther(s: State, s': State, t: Tid)
    requires Inv(s) && Next(s, s') && Stands(s, t, InWait) && Stands(s', t, InWait)
    ensures B(Committed(s'.pc[t])) == B(Committed(s.pc[t])) + B(Lowers(t, s, s'))
    ensures AttemptsLeft(s'.pc[t]) + B(Attempts(t, s, s')) == AttemptsLeft(s.pc[t])
  {
    var u: Tid :| u < |s.pc| && Step(s, u, s');
    OthersStay(s, u, s', t);
    if u == t {
      assert Local(s, s.pc[t]);
      WaitAccess(s.g, s.pc[t], s'.g, s'.pc[t]);
    }
  }

  lemma WaitReturns(s: State, s': State, t: Tid)
    requires Inv(s) && Next(s, s') && Stands(s, t, InWait) && t < |s'.pc| && !InWait(s'.pc[t])
    ensures s'.pc[t] == Idle && Passes(s.g, s.pc[t], s'.g) && !Attempts(t, s, s')
    ensures B(Committed(s.pc[t])) + B(Lowers(t, s, s')) == 1 && (!s.pc[t].TryCas? ==> AttemptsLeft(s.pc[t]) == 0)
  {
    var u: Tid :| u < |s.pc| && Step(s, u, s');
    OthersStay(s, u, s', t);
    assert Local(s, s.pc[t]);
    WaitAccess(s.g, s.pc[t], s'.g, s'.pc[t]);
  }

  lemma WaitTracks(t: Tid)
    ensures forall s, s' :: Inv(s) && Stands(s, t, InWait) && Stands(s', t, InWait) && Next(s, s') ==>
              && B(Committed(s'.pc[t])) == B(Committed(s.pc[t])) + B(Lowers(t, s, s'))
              && AttemptsLeft(s'.pc[t]) + B(Attempts(t, s, s')) == AttemptsLeft(s.pc[t])
  {
    forall s, s' | Inv(s) && Stands(s, t, InWait) && Stands(s', t, InWait) && Next(s, s')
      ensures B(Committed(s'.pc[t])) == B(Committed(s.pc[t])) + B(Lowers(t, s, s'))
      ensures AttemptsLeft(s'.pc[t]) + B(Attempts(t, s, s')) == AttemptsLeft(s.pc[t]) {
      WaitFurther(s, s', t);
    }
  }

  lemma WaitLowers(tr: seq<State>, i: nat, j: nat, t: Tid)
    requires Run(tr) && i < j < |tr| && t < |tr[i].pc| && tr[i].pc[t].SpinTest?
    requires Throughout((s: State) => Stands(s, t, InWait), tr, i, j)
    ensures Inv(tr[j - 1]) && Stands(tr[j - 1], t, InWait) && Next(tr[j - 1], tr[j])
    ensures Occurs((s, s') => Lowers(t, s, s'), tr, i, j)
         == B(Committed(tr[j - 1].pc[t])) + B(Lowers(t, tr[j - 1], tr[j]))
  {
    var inside, lowers := (s: State) => Stands(s, t, InWait), (s, s') => Lowers(t, s, s');
    var n := (s: State) => if t < |s.pc| then B(Committed(s.pc[t])) else 0;
    Inductive();
    WaitTracks(t);
    WholeCall(Init, Next, Inv, inside, inside, lowers, n, tr, i, j);
  }

  lemma WaitAttempts(tr: seq<State>, i: nat, j: nat, t: Tid)
    requires Run(tr) && i < j < |tr| && t < |tr[i].pc| && tr[i].pc[t].SpinTest?
    requires Throughout((s: State) => Stands(s, t, InWait), tr, i, j)
    ensures t < |tr[j - 1].pc|
    ensures AttemptsLeft(tr[j - 1].pc[t]) + Occurs((s, s') => Attempts(t, s, s'), tr, i, j - 1) == tr[i].pc[t].spins
  {
    var inside, attempts := (s: State) => Stands(s, t, InWait), (s, s') => Attempts(t, s, s');
    var n, never := (s: State) => if t < |s.pc| then AttemptsLeft(s.pc[t]) else 0, (s: State, s': State) => false;
    Inductive();
    WaitTracks(t);
    WholeBalance(Init, Next, Inv, inside, inside, never, attempts, n, tr, i, j);
    OccursNever(never, tr, i, j - 1);
  }

  /** A call of wait that has returned has taken exactly one from sem_count_. It got through at an
      attempt that found a positive count, or, after as many attempts as it was to make, because the
      count was not negative, with a kernel token, or because the semaphore was inactive. */
  lemma WaitExact(tr: seq<State>, i: nat, j: nat, t: Tid)
    requires Run(tr) && i < j < |tr| && t < |tr[i].pc| && tr[i].pc[t].SpinTest?
    requires Throughout((s: State) => Stands(s, t, InWait), tr, i, j) && t < |tr[j].pc| && !InWait(tr[j].pc[t])
    ensures tr[j].pc[t] == Idle && t < |tr[j - 1].pc| && Passes(tr[j - 1].g, tr[j - 1].pc[t], tr[j].g)
    ensures Occurs((s, s') => Lowers(t, s, s'), tr, i, j) == 1
    ensures var attempts := Occurs((s, s') => Attempts(t, s, s'), tr, i, j);
            attempts <= tr[i].pc[t].spins && (!tr[j - 1].pc[t].TryCas? ==> attempts == tr[i].pc[t].spins)
  {
    WaitLowers(tr, i, j, t);
    WaitAttempts(tr, i, j, t);
    WaitReturns(tr[j - 1], tr[j], t);
  }

  // post ------------------------------------------------------------------------------------------

  predicate InPost(p: PC) { (p.Add? || p.Kernel?) && !p.closing }

  /** A post of n can stand at p. */
  predicate Posting(n: nat, p: PC) { InPost(p) && (p.Add? ==> p.count == n) }

  /** Thread t adds n to sem_count_ and, if that was negative, is left with k tokens to deliver:
      one for every wait that n makes up for. */
  predicate Adds(t: Tid, n: nat, k: nat, s: State, s': State) {
    && t < |s.pc| == |s'.pc| && s.pc[t].Add? && s'.pc[t] != s.pc[t] && s'.g.count == s.g.count + n
    && k == if s.g.count >= 0 then 0 else if -s.g.count < n then -s.g.count else n
  }

  lemma PostAccess(g: Shared, p: PC, g': Shared, p': PC, n: nat)
    requires Act(g, p, g', p') && Posting(n, p)
    ensures p.Add? ==> g' == g.(count := g.count + n)
    ensures p.Add? ==> p' == if g.count >= 0 then Idle else Kernel(if -g.count < n then -g.count else n, false)
    ensures p.Kernel? ==> p' == Idle && g' == g.(kernel := g.kernel + p.count)
  {
  }

  /** What thread t has to deliver to the kernel semaphore at p. */
  predicate Delivers(k: nat, p: PC) { p == Kernel(k, false) }

  lemma PostFurther(s: State, s': State, t: Tid, n: nat, k: nat)
    requires Next(s, s') && Stands(s, t, InPost) && Posting(n, s.pc[t]) && Stands(s', t, InPost)
    ensures Posting(n, s'.pc[t]) && B(Delivers(k, s'.pc[t])) == B(Delivers(k, s.pc[t])) + B(Adds(t, n, k, s, s'))
  {
    var u: Tid :| u < |s.pc| && Step(s, u, s');
    OthersStay(s, u, s', t);
    if u == t { PostAccess(s.g, s.pc[t], s'.g, s'.pc[t], n); }
  }

  /** The step with which a post ends. */
  lemma PostReturns(s: State, s': State, t: Tid, n: nat)
    requires Next(s, s') && Stands(s, t, InPost) && Posting(n, s.pc[t]) && t < |s'.pc| && !InPost(s'.pc[t])
    ensures s'.pc[t] == Idle && (s.pc[t].Add? ==> Adds(t, n, 0, s, s') && s'.g.kernel == s.g.kernel)
    ensures s.pc[t].Kernel? ==> s'.g == s.g.(kernel := s.g.kernel + s.pc[t].count)
  {
    var u: Tid :| u < |s.pc| && Step(s, u, s');
    OthersStay(s, u, s', t);
    PostAccess(s.g, s.pc[t], s'.g, s'.pc[t], n);
  }

  lemma PostCounts(tr: seq<State>, i: nat, j: nat, t: Tid, n: nat, k: nat)
    requires Run(tr) && i < j < |tr| && t < |tr[i].pc| && tr[i].pc[t] == Add(n, false)
    requires Throughout((s: State) => Stands(s, t, InPost), tr, i, j)
    ensures Next(tr[j - 1], tr[j]) && Stands(tr[j - 1], t, InPost) && Posting(n, tr[j - 1].pc[t])
    ensures Occurs((s, s') => Adds(t, n, k, s, s'), tr, i, j)
         == B(Delivers(k, tr[j - 1].pc[t])) + B(Adds(t, n, k, tr[j - 1], tr[j]))
  {
    var inside, p := (s: State) => Stands(s, t, InPost), (s: State) => t < |s.pc| && Posting(n, s.pc[t]);
    var adds, has := (s, s') => Adds(t, n, k, s, s'), (s: State) => if t < |s.pc| then B(Delivers(k, s.pc[t])) else 0;
    Inductive();
    forall s, s' | inside(s) && inside(s') && p(s) && Next(s, s')
      ensures p(s') && has(s') == has(s) + if adds(s, s') then 1 else 0 {
      PostFurther(s, s', t, n, k);
    }
    WholeCall(Init, Next, Inv, inside, p, adds, has, tr, i, j);
  }

  /** A call of post that has returned has added its count to sem_count_ exactly once; and if that was
      negative it has delivered to the kernel semaphore one token for each wait it makes up for. */
  lemma PostExact(tr: seq<State>, i: nat, j: nat, t: Tid, n: nat)
    requires Run(tr) && i < j < |tr| && t < |tr[i].pc| && tr[i].pc[t] == Add(n, false)
    requires Throughout((s: State) => Stands(s, t, InPost), tr, i, j) && t < |tr[j].pc| && !InPost(tr[j].pc[t])
    ensures tr[j].pc[t] == Idle && t < |tr[j - 1].pc|
    ensures var k := if tr[j - 1].pc[t].Kernel? then tr[j - 1].pc[t].count else 0;
            && Occurs((s, s') => Adds(t, n, k, s, s'), tr, i, j) == 1
            && tr[j].g.kernel == tr[j - 1].g.kernel + k
  {
    PostCounts(tr, i, j, t, n, 0);
    PostReturns(tr[j - 1], tr[j], t, n);
    if tr[j - 1].pc[t].Kernel? { PostCounts(tr, i, j, t, n, tr[j - 1].pc[t].count); }
  }

  // deactivate ------------------------------------------------------------------------------------

  predicate InStop(p: PC) { p.Close? || p.Measure? || ((p.Add? || p.Kernel?) && p.closing) }

  predicate Stopping(s: State, t: Tid) {
    && Stands(s, t, InStop) && (!s.pc[t].Close? ==> !s.g.active) && (s.pc[t].Kernel? ==> s.h.closed)
  }

  lemma StopAccess(g: Shared, h: History, p: PC, g': Shared, p': PC)
    requires Act(g, p, g', p') && InStop(p) && (!p.Close? ==> !g.active) && (p.Kernel? ==> h.closed)
    ensures !g'.active && (if p'.Kernel? || p' == Idle then Record(h, g, p).closed else InStop(p') && !p'.Close?)
    ensures InStop(p') || p' == Idle
  {
  }

  lemma StopFurther(s: State, s': State, t: Tid)
    requires Next(s, s') && Stopping(s, t) && t < |s'.pc|
    ensures if InStop(s'.pc[t]) then Stopping(s', t) else s'.pc[t] == Idle && !s'.g.active && s'.h.closed
  {
    var u: Tid :| u < |s.pc| && Step(s, u, s');
    OthersStay(s, u, s', t);
    ActBalanced(s.g, s.pc[u], s'.g, s'.pc[u]);
    if u == t { StopAccess(s.g, s.h, s.pc[t], s'.g, s'.pc[t]); }
  }

  /** A call of deactivate that has returned: the semaphore is inactive, and the kernel tokens cover
      all blocked threads. */
  lemma DeactivateExact(tr: seq<State>, i: nat, j: nat, t: Tid)
    requires Run(tr) && i < j < |tr| && t < |tr[i].pc| && tr[i].pc[t] == Close
    requires Throughout((s: State) => Stands(s, t, InStop), tr, i, j) && t < |tr[j].pc| && !InStop(tr[j].pc[t])
    ensures tr[j].pc[t] == Idle && !tr[j].g.active && Count(tr[j].pc, Blocked) <= Tokens(tr[j])
  {
    StopEnds(tr, i, j, t);
    DeactivateFreesAll(tr, j);
  }

  lemma StopEnds(tr: seq<State>, i: nat, j: nat, t: Tid)
    requires Run(tr) && i < j < |tr| && t < |tr[i].pc| && tr[i].pc[t] == Close
    requires Throughout((s: State) => Stands(s, t, InStop), tr, i, j) && t < |tr[j].pc| && !InStop(tr[j].pc[t])
    ensures tr[j].pc[t] == Idle && !tr[j].g.active && tr[j].h.closed
  {
    var inside, p := (s: State) => Stands(s, t, InStop), (s: State) => Stopping(s, t);
    var never, zero := (s: State, s': State) => false, (s: State) => 0;
    Inductive();
    forall s, s' | inside(s') && p(s) && Next(s, s') ensures p(s') { StopFurther(s, s', t); }
    WholeCall(Init, Next, Inv, inside, p, never, zero, tr, i, j);
    StopFurther(tr[j - 1], tr[j], t);
  }
}
