/** Whole calls of the pool, however they interleave: which flag a shutdown raises and what it
    waits for, what a submit leaves in the queue, and how often the workers run their tasks. */
module PoolCalls {
  import opened Counting
  import opened Locks
  import opened Pool
  import opened Runs
  import FS = FastSemaphore
  import PQ = PrioQueue

  lemma Inductive()
    ensures forall s :: Init(s) ==> Inv(s)
    ensures forall s, s' :: Inv(s) && Next(s, s') ==> Inv(s')
  {
    forall s | Init(s) ensures Inv(s) { InitInv(s); }
    forall s, s' | Inv(s) && Next(s, s') ensures Inv(s') { NextInv(s, s'); }
  }

  // shutdown and shutdown_now -----------------------------------------------------------------

  /** Inside a call of shutdown or shutdown_now, or past it. */
  predicate Closes(p: PC) { p.CloseQueue? || p.CloseSem? || p.Flag? || p.Join? || p.Done? }

  /** Has not raised its flag yet. */
  predicate Unflagged(p: PC) { p.CloseQueue? || p.CloseSem? || p.Flag? }

  /** What a step means to the shutdown: who is in one, how far it is, and the flags. */
  ghost predicate Shuts(g: Shared, p: PC, g': Shared, p': PC) {
    && (if p == Out && Closes(p') then p'.CloseQueue? && !g.closed && g'.closed
        else g'.closed == g.closed && (Closes(p') <==> Closes(p)))
    && (Unflagged(p') && Unflagged(p) ==> p'.now == p.now)
    && (!Unflagged(p) && Closes(p) ==> !Unflagged(p'))
    && g'.shtdwn == (g.shtdwn || p == Flag(false)) && g'.shtdwnNow == (g.shtdwnNow || p == Flag(true))
    && (Unflagged(p) ==> (p.Flag? <==> !Unflagged(p')))
  }

  lemma WorkerFrame(g: Shared, p: PC, latched: bool, t: Tid, g': Shared, p': PC, sp': FS.PC)
    requires WorkerStep(g, p, latched, t, g', p', sp')
    ensures Worker(p) && Worker(p') && g' == g.(q := g'.q)
  {
  }

  lemma WorkerShuts(g: Shared, p: PC, g': Shared, p': PC)
    requires Worker(p) && Worker(p') && g' == g.(q := g'.q)
    ensures Shuts(g, p, g', p')
  {
  }

  lemma OtherShuts(g: Shared, p: PC, allExited: bool, t: Tid, g': Shared, p': PC, sp': FS.PC)
    requires !Worker(p) && OtherStep(g, p, allExited, t, g', p', sp')
    ensures Shuts(g, p, g', p')
  {
    match p {
      case Submit(x) =>
        var end :| PQ.PutStep(g.q, x, g'.q, end) && PutLeaves(g, x, end, t, g', p', sp');
      case Sleep(x) =>
        var n, end :| PQ.ResumeStep(g.q, x, n, false, g'.q, end) && PutLeaves(g, x, end, t, g', p', sp');
      case _ =>
    }
  }

  lemma StepShuts(s: State, t: Tid, s': State)
    requires Inv(s) && t < |s.pc| && Step(s, t, s')
    ensures |s'.pc| == |s.pc| && s'.pc == s.pc[t := s'.pc[t]] && Shuts(s.g, s.pc[t], s'.g, s'.pc[t])
  {
    assert Fits(s.pc[t], s.sem.pc[t]);
    if InSem(s.pc[t]) {
    } else if Worker(s.pc[t]) {
      WorkerFrame(s.g, s.pc[t], s.latch[t], t, s'.g, s'.pc[t], s'.sem.pc[t]);
      WorkerShuts(s.g, s.pc[t], s'.g, s'.pc[t]);
    } else {
      OtherShuts(s.g, s.pc[t], AllExited(s.pc), t, s'.g, s'.pc[t], s'.sem.pc[t]);
    }
  }

  /** There is at most one call, and the flags are its own. */
  ghost predicate OneShutdown(s: State) {
    && (forall t, u :: 0 <= t < |s.pc| && 0 <= u < |s.pc| && Closes(s.pc[t]) && Closes(s.pc[u]) ==> t == u)
    && (forall t :: 0 <= t < |s.pc| && Closes(s.pc[t]) ==> s.g.closed)
    && (forall t :: 0 <= t < |s.pc| && Unflagged(s.pc[t]) ==> !s.g.shtdwn && !s.g.shtdwnNow)
    && (!s.g.closed ==> !s.g.shtdwn && !s.g.shtdwnNow)
  }

  lemma OneShutdownKept(s: State, s': State)
    requires Inv(s) && OneShutdown(s) && Next(s, s')
    ensures OneShutdown(s')
  {
    var t: Tid :| t < |s.pc| && Step(s, t, s');
    StepShuts(s, t, s');
    OneShutdownMoves(s, t, s');
  }

  lemma OneShutdownMoves(s: State, t: Tid, s': State)
    requires OneShutdown(s) && t < |s.pc| == |s'.pc| && s'.pc == s.pc[t := s'.pc[t]]
    requires Shuts(s.g, s.pc[t], s'.g, s'.pc[t])
    ensures OneShutdown(s')
  {
  }

  /** Thread d is in its call of shutdown_now, if now, or of shutdown. */
  ghost predicate Shutting(d: Tid, now: bool, s: State) {
    && d < |s.pc| && Closes(s.pc[d])
    && if Unflagged(s.pc[d]) then s.pc[d].now == now else s.g.shtdwnNow == now && s.g.shtdwn == !now
  }

  lemma ShuttingKept(d: Tid, now: bool, s: State, s': State)
    requires Inv(s) && OneShutdown(s) && Next(s, s') && Shutting(d, now, s)
    ensures Shutting(d, now, s')
  {
    var t: Tid :| t < |s.pc| && Step(s, t, s');
    StepShuts(s, t, s');
    if t != d { assert !Closes(s.pc[t]); }
  }

  lemma ShuttingForever(tr: seq<State>, i: nat, j: nat, d: Tid, now: bool)
    requires Run(tr) && i <= j < |tr| && d < |tr[i].pc| && tr[i].pc[d] == CloseQueue(now)
    ensures OneShutdown(tr[j]) && Shutting(d, now, tr[j])
  {
    var inv, shutting := (s: State) => Inv(s) && OneShutdown(s), (s: State) => OneShutdown(s) && Shutting(d, now, s);
    Inductive();
    forall s, s' | inv(s) && Next(s, s') ensures inv(s') { OneShutdownKept(s, s'); }
    forall s, s' | inv(s) && Next(s, s') && shutting(s) ensures shutting(s') { ShuttingKept(d, now, s, s'); }
    Always(Init, Next, inv, tr, i);
    Forever(Init, Next, inv, shutting, tr, i, j);
  }

  /** A call of shutdown raises shtdwn_ and never shtdwn_now_, a call of shutdown_now the other way
      round; it has raised its flag before it joins the workers, and no second call ever begins. */
  lemma ShutdownFlags(tr: seq<State>, i: nat, j: nat, d: Tid, now: bool)
    requires Run(tr) && i <= j < |tr| && d < |tr[i].pc| && tr[i].pc[d] == CloseQueue(now)
    ensures d < |tr[j].pc| && (tr[j].g.shtdwnNow ==> now) && (tr[j].g.shtdwn ==> !now)
    ensures tr[j].pc[d].Join? || tr[j].pc[d].Done? ==> tr[j].g.shtdwnNow == now && tr[j].g.shtdwn == !now
    ensures forall u :: 0 <= u < |tr[j].pc| && Closes(tr[j].pc[u]) ==> u == d
  {
    ShuttingForever(tr, i, j, d, now);
  }

  /** In s somebody calls shutdown_now, if now, or shutdown. */
  predicate Calls(now: bool, s: State) { exists t :: 0 <= t < |s.pc| && s.pc[t] == CloseQueue(now) }

  predicate FlagOf(now: bool, g: Shared) { if now then g.shtdwnNow else g.shtdwn }

  /** Nobody is on the way to raise this flag, and it is not up. */
  predicate Quiet(now: bool, s: State) {
    !FlagOf(now, s.g) && forall t :: 0 <= t < |s.pc| && Unflagged(s.pc[t]) ==> s.pc[t].now != now
  }

  lemma QuietKept(now: bool, s: State, s': State)
    requires Inv(s) && Quiet(now, s) && Next(s, s') && !Calls(now, s')
    ensures Quiet(now, s')
  {
    var t: Tid :| t < |s.pc| && Step(s, t, s');
    StepShuts(s, t, s');
    assert s'.pc[t] != CloseQueue(now);
  }

  lemma InitQuiet(now: bool, s: State)
    requires Init(s)
    ensures Quiet(now, s)
  {
  }

  lemma NoCallNoFlag(tr: seq<State>, j: nat, now: bool)
    requires Run(tr) && j < |tr| && Throughout((s: State) => !Calls(now, s), tr, 0, j + 1)
    ensures !FlagOf(now, tr[j].g)
  {
    var inside, quiet := (s: State) => Inv(s) && !Calls(now, s), (s: State) => Quiet(now, s);
    var never, zero := (s: State, s': State) => false, (s: State) => 0;
    forall k | 0 <= k < j + 1 ensures inside(tr[k]) { RunInv(tr, k); }
    InitQuiet(now, tr[0]);
    forall s, s' | inside(s) && inside(s') && quiet(s) && Next(s, s') ensures quiet(s') { QuietKept(now, s, s'); }
    During(Next, inside, quiet, never, zero, tr, 0, j);
  }

  /** A flag is up only if the call that raises it has been made. */
  lemma FlagsFromCalls(tr: seq<State>, j: nat, now: bool)
    requires Run(tr) && j < |tr| && FlagOf(now, tr[j].g)
    ensures exists i :: 0 <= i <= j && Calls(now, tr[i])
  {
    if forall i :: 0 <= i <= j ==> !Calls(now, tr[i]) {
      NoCallNoFlag(tr, j, now);
    }
  }

  /** A call of shutdown that has returned, on a pool with a worker: all workers have left, the global
      queue is empty and inactive, and every task it ever accepted has been taken by a worker; what
      is not complete lies in the workers' own deques. */
  lemma ShutdownCall(tr: seq<State>, i: nat, j: nat, d: Tid, w: Tid)
    requires Run(tr) && i <= j < |tr| && d < |tr[i].pc| && tr[i].pc[d] == CloseQueue(false)
    requires d < |tr[j].pc| && tr[j].pc[d].Done? && w < |tr[j].pc| && Worker(tr[j].pc[w])
    ensures var s := tr[j];
            && AllExited(s.pc) && s.g.q.items == multiset{} && !s.g.q.active
            && s.g.q.accepted == multiset(s.g.q.taken)
            && (s.led.completed == |s.g.q.accepted| <==> forall u :: 0 <= u < |s.led.own| ==> s.led.own[u] == 0)
  {
    ShutdownFlags(tr, i, j, d, false);
    ShutdownJoins(tr, j, d, w);
    ShutdownDrains(tr, j, w);
    RestInDeques(tr, j, d, w);
    RunInv(tr, j);
  }

  /** On a closed pool no call of submit or shutdown begins any more. */
  lemma ClosedRefuses(tr: seq<State>, i: nat, j: nat, t: Tid)
    requires Run(tr) && i <= j < |tr| && tr[i].g.closed && t < |tr[i].pc| && tr[i].pc[t] == Out
    ensures tr[j].g.closed && t < |tr[j].pc| && tr[j].pc[t] == Out
  {
    var out := (s: State) => s.g.closed && t < |s.pc| && s.pc[t] == Out;
    Inductive();
    forall s, s' | Inv(s) && Next(s, s') && out(s) ensures out(s') { OutKept(s, s', t); }
    Forever(Init, Next, Inv, out, tr, i, j);
  }

  lemma OutKept(s: State, s': State, t: Tid)
    requires Inv(s) && Next(s, s') && s.g.closed && t < |s.pc| && s.pc[t] == Out
    ensures s'.g.closed && t < |s'.pc| && s'.pc[t] == Out
  {
    var u: Tid :| u < |s.pc| && Step(s, u, s');
    StepShuts(s, u, s');
  }

  // submit --------------------------------------------------------------------------------------

  /** Inside submit, from the put into the queue to the end of its post. */
  predicate InSubmit(p: PC) { p.Submit? || p.Sleep? || p.Deliver? }

  predicate Submits(s: State, t: Tid) { t < |s.pc| == |s.sem.pc| && InSubmit(s.pc[t]) }

  predicate Carries(x: PQ.Item, p: PC) { p.Submit? || p.Sleep? ==> p.x == x }

  /** The queue accepts x from thread t, and nothing else. */
  ghost predicate Accepts(t: Tid, x: PQ.Item, s: State, s': State) {
    && t < |s.pc| == |s'.pc| && !s.pc[t].Deliver? && s'.pc[t].Deliver?
    && s'.g.q.accepted == s.g.q.accepted + multiset{x} && s'.g.q.items == s.g.q.items + multiset{x}
  }

  /** Thread t posts for one task. */
  ghost predicate Posts(t: Tid, s: State, s': State) {
    && t < |s.sem.pc| == |s'.sem.pc| && s.sem.pc[t].Add? && !s'.sem.pc[t].Add?
    && s'.sem.h.posted == s.sem.h.posted + 1
  }

  predicate HasPosted(s: State, t: Tid) { t < |s.pc| == |s.sem.pc| && s.pc[t].Deliver? && !s.sem.pc[t].Add? }

  /** How a critical section of put leaves the submitter. */
  lemma PutSection(g: Shared, p: PC, x: PQ.Item, t: Tid, g': Shared, p': PC, sp': FS.PC)
    requires (p.Submit? || p.Sleep?) && p.x == x && OtherStep(g, p, false, t, g', p', sp')
    ensures p'.Deliver? ==> g'.q.accepted == g.q.accepted + multiset{x} && g'.q.items == g.q.items + multiset{x}
    ensures p'.Deliver? ==> sp' == FS.Add(1, false)
    ensures p'.Deliver? || p' == Sleep(x) || (p' == Out && !g'.q.active)
  {
    if p.Submit? {
      var end :| PQ.PutStep(g.q, x, g'.q, end) && PutLeaves(g, x, end, t, g', p', sp');
      PQ.PutExact(g.q, PQ.Put(x, end), x, false, end, g'.q);
    } else {
      var n, end :| PQ.ResumeStep(g.q, x, n, false, g'.q, end) && PutLeaves(g, x, end, t, g', p', sp');
      PQ.PutExact(g.q, PQ.Resume(x, n, false, end), x, false, end, g'.q);
    }
  }

  /** The access of a submitter in put. */
  lemma PutAccess(s: State, t: Tid, s': State, x: PQ.Item)
    requires Inv(s) && t < |s.pc| && Step(s, t, s') && Submits(s, t) && Carries(x, s.pc[t]) && !s.pc[t].Deliver?
    ensures |s'.sem.pc| == |s'.pc| == |s.pc|
    ensures s'.pc[t] == Sleep(x) || (s'.pc[t] == Out && !s'.g.q.active)
         || (s'.pc[t] == Deliver && Accepts(t, x, s, s') && s'.sem.pc[t].Add?)
  {
    assert Fits(s.pc[t], s.sem.pc[t]);
    PutSection(s.g, s.pc[t], x, t, s'.g, s'.pc[t], s'.sem.pc[t]);
  }

  /** The access of a submitter in its post. */
  lemma DeliverAccess(s: State, t: Tid, s': State)
    requires Inv(s) && t < |s.pc| && Step(s, t, s') && s.pc[t].Deliver?
    ensures |s'.sem.pc| == |s'.pc| == |s.pc| == |s.sem.pc| && !s'.sem.pc[t].Add?
    ensures s'.pc[t].Deliver? || (s'.pc[t] == Out && s.sem.pc[t] == FS.Idle)
    ensures s.sem.pc[t].Add? <==> Posts(t, s, s')
  {
    assert Fits(s.pc[t], s.sem.pc[t]);
    if s.sem.pc[t] != FS.Idle { assert FS.Act(s.sem.g, s.sem.pc[t], s'.sem.g, s'.sem.pc[t]); }
  }

  lemma Others(s: State, u: Tid, s': State, t: Tid)
    requires Inv(s) && u < |s.pc| && Step(s, u, s') && t < |s.pc| && t != u
    ensures |s'.pc| == |s.pc| == |s.sem.pc| == |s'.sem.pc| && s'.pc[t] == s.pc[t] && s'.sem.pc[t] == s.sem.pc[t]
  {
    StepEffects(s, u, s');
  }

  lemma SubmitFurther(s: State, s': State, t: Tid, x: PQ.Item)
    requires Inv(s) && Next(s, s') && Submits(s, t) && Carries(x, s.pc[t]) && Submits(s', t)
    ensures Carries(x, s'.pc[t])
    ensures B(s'.pc[t].Deliver?) == B(s.pc[t].Deliver?) + B(Accepts(t, x, s, s'))
    ensures B(HasPosted(s', t)) == B(HasPosted(s, t)) + B(s.pc[t].Deliver? && Posts(t, s, s'))
  {
    var u: Tid :| u < |s.pc| && Step(s, u, s');
    if u != t {
      Others(s, u, s', t);
    } else if s.pc[t].Deliver? {
      DeliverAccess(s, t, s');
    } else {
      PutAccess(s, t, s', x);
    }
  }

  lemma SubmitReturns(s: State, s': State, t: Tid, x: PQ.Item)
    requires Inv(s) && Next(s, s') && Submits(s, t) && Carries(x, s.pc[t]) && t < |s'.pc| && !InSubmit(s'.pc[t])
    ensures s'.pc[t] == Out && (s.pc[t].Deliver? ==> HasPosted(s, t)) && (!s.pc[t].Deliver? ==> !s'.g.q.active)
    ensures !Accepts(t, x, s, s') && !(s.pc[t].Deliver? && Posts(t, s, s'))
  {
    var u: Tid :| u < |s.pc| && Step(s, u, s');
    if u != t {
      Others(s, u, s', t);
    } else if s.pc[t].Deliver? {
      DeliverAccess(s, t, s');
    } else {
      PutAccess(s, t, s', x);
    }
  }

  predicate InCall(t: Tid, x: PQ.Item, s: State) { Submits(s, t) && Carries(x, s.pc[t]) }

  /** What rel counts is what the submitter has done, as where it stands tells. */
  ghost predicate Tracks(t: Tid, x: PQ.Item, has: State -> bool, rel: (State, State) -> bool) {
    forall s, s' :: Inv(s) && InCall(t, x, s) && Submits(s', t) && Next(s, s') ==>
      InCall(t, x, s') && B(has(s')) == B(has(s)) + B(rel(s, s'))
  }

  lemma SubmitCounts(tr: seq<State>, i: nat, j: nat, t: Tid, x: PQ.Item, has: State -> bool,
                     rel: (State, State) -> bool)
    requires Run(tr) && i < j < |tr| && InCall(t, x, tr[i]) && !has(tr[i])
    requires Throughout((s: State) => Submits(s, t), tr, i, j) && Tracks(t, x, has, rel)
    ensures Inv(tr[j - 1]) && InCall(t, x, tr[j - 1]) && Next(tr[j - 1], tr[j])
    ensures Occurs(rel, tr, i, j) == B(has(tr[j - 1])) + B(rel(tr[j - 1], tr[j]))
  {
    var inside, p := (s: State) => Submits(s, t), (s: State) => InCall(t, x, s);
    var n := (s: State) => B(has(s));
    Inductive();
    WholeCall(Init, Next, Inv, inside, p, rel, n, tr, i, j);
  }

  predicate HasAccepted(s: State, t: Tid) { t < |s.pc| && s.pc[t].Deliver? }

  lemma AcceptTracks(t: Tid, x: PQ.Item)
    ensures Tracks(t, x, (s: State) => HasAccepted(s, t), (s, s') => Accepts(t, x, s, s'))
  {
    forall s, s' | Inv(s) && InCall(t, x, s) && Submits(s', t) && Next(s, s')
      ensures InCall(t, x, s') && B(HasAccepted(s', t)) == B(HasAccepted(s, t)) + B(Accepts(t, x, s, s')) {
      SubmitFurther(s, s', t, x);
    }
  }

  lemma PostTracks(t: Tid, x: PQ.Item)
    ensures Tracks(t, x, (s: State) => HasPosted(s, t), (s, s') => HasAccepted(s, t) && Posts(t, s, s'))
  {
    forall s, s' | Inv(s) && InCall(t, x, s) && Submits(s', t) && Next(s, s')
      ensures InCall(t, x, s')
      ensures B(HasPosted(s', t)) == B(HasPosted(s, t)) + B(HasAccepted(s, t) && Posts(t, s, s')) {
      SubmitFurther(s, s', t, x);
    }
  }

  /** A call of submit that has returned: the queue accepted the very task once, and one token was
      posted for it; or it accepted nothing, and is inactive. */
  lemma SubmitExact(tr: seq<State>, i: nat, j: nat, t: Tid, x: PQ.Item)
    requires Run(tr) && i < j < |tr| && t < |tr[i].pc| == |tr[i].sem.pc| && tr[i].pc[t] == Submit(x)
    requires Throughout((s: State) => Submits(s, t), tr, i, j) && t < |tr[j].pc| && !InSubmit(tr[j].pc[t])
    ensures tr[j].pc[t] == Out
    ensures Occurs((s, s') => Accepts(t, x, s, s'), tr, i, j) == B(HasAccepted(tr[j - 1], t))
    ensures Occurs((s, s') => HasAccepted(s, t) && Posts(t, s, s'), tr, i, j) == B(HasAccepted(tr[j - 1], t))
    ensures !HasAccepted(tr[j - 1], t) ==> !tr[j].g.q.active
  {
    var accepts := (s, s') => Accepts(t, x, s, s');
    var posts := (s, s') => HasAccepted(s, t) && Posts(t, s, s');
    var accepted, posted := (s: State) => HasAccepted(s, t), (s: State) => HasPosted(s, t);
    AcceptTracks(t, x);
    PostTracks(t, x);
    SubmitCounts(tr, i, j, t, x, accepted, accepts);
    SubmitCounts(tr, i, j, t, x, posted, posts);
    SubmitReturns(tr[j - 1], tr[j], t, x);
  }

  // The tasks that workers run --------------------------------------------------------------------

  /** Some worker's task is complete after its run. */
  predicate Completes(s: State, s': State) {
    |s.pc| == |s'.pc| && exists w :: 0 <= w < |s.pc| && s.pc[w].Work? && s'.pc[w].Check?
  }

  /** Some worker puts its task back, and begins to post for it. */
  predicate PutsBack(s: State, s': State) {
    && |s.pc| == |s'.pc| == |s'.sem.pc|
    && exists w :: 0 <= w < |s.pc| && s.pc[w].Work? && s'.pc[w].Requeue? && s'.sem.pc[w] == FS.Add(1, false)
  }

  /** What the step of thread t means to the ledger. */
  lemma RunAccess(s: State, t: Tid, s': State)
    requires Inv(s) && t < |s.pc| && Step(s, t, s')
    ensures |s'.pc| == |s'.sem.pc| == |s.pc| && s'.pc == s.pc[t := s'.pc[t]]
    ensures s'.led.completed == s.led.completed + B(s.pc[t].Work? && s'.pc[t].Check?)
    ensures s'.led.requeued == s.led.requeued + B(s.pc[t].Work? && s'.pc[t].Requeue?)
    ensures s.pc[t].Work? && s'.pc[t].Requeue? ==> s'.sem.pc[t] == FS.Add(1, false)
  {
    assert Fits(s.pc[t], s.sem.pc[t]);
  }

  lemma RunEnds(s: State, s': State)
    requires Inv(s) && Next(s, s')
    ensures s'.led.completed == s.led.completed + B(Completes(s, s'))
    ensures s'.led.requeued == s.led.requeued + B(PutsBack(s, s'))
  {
    var t: Tid :| t < |s.pc| && Step(s, t, s');
    RunAccess(s, t, s');
  }

  lemma InitLedger(s: State)
    requires Init(s)
    ensures s.led.completed == 0 == s.led.requeued
  {
  }

  /** The ledger counts the runs: every run after which a task was complete, and every one after
      which it was put back, once each. */
  lemma RunsCounted(tr: seq<State>, j: nat)
    requires Run(tr) && j < |tr|
    ensures tr[j].led.completed == Occurs(Completes, tr, 0, j) && tr[j].led.requeued == Occurs(PutsBack, tr, 0, j)
  {
    var completed, requeued := (s: State) => s.led.completed, (s: State) => s.led.requeued;
    InitLedger(tr[0]);
    Inductive();
    forall s, s' | Inv(s) && Next(s, s')
      ensures completed(s') == completed(s) + if Completes(s, s') then 1 else 0
      ensures requeued(s') == requeued(s) + if PutsBack(s, s') then 1 else 0 {
      RunEnds(s, s');
    }
    CountsAlong(Init, Next, Inv, Completes, completed, tr, 0, j);
    CountsAlong(Init, Next, Inv, PutsBack, requeued, tr, 0, j);
  }

  /** On the way of a worker round its loop, between its exit tests and its sleep. */
  predicate OnLap(p: PC) { p.Check? || p.Empty? || p.Now? || p.Own? || p.Global? || p.Steal? }

  predicate Laps(s: State, w: Tid) { w < |s.pc| == |s.led.own| && OnLap(s.pc[w]) }

  predicate PastOwn(p: PC) { p.Global? || p.Steal? }

  /** Worker w finds its own deque empty. */
  predicate FindsOwnEmpty(w: Tid, s: State, s': State) {
    && w < |s.pc| == |s'.pc| == |s.led.own|
    && s.pc[w].Own? && s'.pc[w].Global? && s.led.own[w] == 0
  }

  /** Worker w finds the global queue empty. */
  predicate FindsQueueEmpty(w: Tid, s: State, s': State) {
    w < |s.pc| == |s'.pc| && s.pc[w].Global? && s'.pc[w].Steal? && s.g.q.items == multiset{}
  }

  lemma LapAccess(s: State, w: Tid, s': State)
    requires Inv(s) && Laps(s, w) && Step(s, w, s') && |s'.pc| == |s.pc| && (OnLap(s'.pc[w]) || s'.pc[w].Wait?)
    ensures OnLap(s'.pc[w]) ==> B(PastOwn(s'.pc[w])) == B(PastOwn(s.pc[w])) + B(FindsOwnEmpty(w, s, s'))
    ensures OnLap(s'.pc[w]) ==> B(s'.pc[w].Steal?) == B(s.pc[w].Steal?) + B(FindsQueueEmpty(w, s, s'))
    ensures s'.pc[w].Wait? ==> s.pc[w].Steal?
  {
    assert Fits(s.pc[w], s.sem.pc[w]);
  }

  lemma LapFurther(s: State, s': State, w: Tid)
    requires Inv(s) && Next(s, s') && Laps(s, w) && w < |s'.pc| && (OnLap(s'.pc[w]) || s'.pc[w].Wait?)
    ensures OnLap(s'.pc[w]) ==> B(PastOwn(s'.pc[w])) == B(PastOwn(s.pc[w])) + B(FindsOwnEmpty(w, s, s'))
    ensures OnLap(s'.pc[w]) ==> B(s'.pc[w].Steal?) == B(s.pc[w].Steal?) + B(FindsQueueEmpty(w, s, s'))
    ensures s'.pc[w].Wait? ==> s.pc[w].Steal?
  {
    var t: Tid :| t < |s.pc| && Step(s, t, s');
    if t == w {
      LapAccess(s, w, s');
    } else {
      Others(s, t, s', w);
    }
  }

  /** What rel counts is what worker w has been through on its lap, as where it stands tells. */
  ghost predicate LapTracks(w: Tid, has: PC -> bool, rel: (State, State) -> bool) {
    forall s, s' :: Inv(s) && Laps(s, w) && Laps(s', w) && Next(s, s') ==>
      B(has(s'.pc[w])) == B(has(s.pc[w])) + B(rel(s, s'))
  }

  lemma BothTrack(w: Tid)
    ensures LapTracks(w, PastOwn, (s, s') => FindsOwnEmpty(w, s, s'))
    ensures LapTracks(w, (p: PC) => p.Steal?, (s, s') => FindsQueueEmpty(w, s, s'))
  {
    forall s, s' | Inv(s) && Laps(s, w) && Laps(s', w) && Next(s, s')
      ensures B(PastOwn(s'.pc[w])) == B(PastOwn(s.pc[w])) + B(FindsOwnEmpty(w, s, s'))
      ensures B(s'.pc[w].Steal?) == B(s.pc[w].Steal?) + B(FindsQueueEmpty(w, s, s')) {
      LapFurther(s, s', w);
    }
  }

  lemma LapCounts(tr: seq<State>, i: nat, j: nat, w: Tid, has: PC -> bool, rel: (State, State) -> bool)
    requires Run(tr) && i < j < |tr| && w < |tr[i].pc| && tr[i].pc[w] == Check && !has(Check)
    requires Throughout((s: State) => Laps(s, w), tr, i, j) && LapTracks(w, has, rel)
    ensures w < |tr[j - 1].pc|
    ensures Occurs(rel, tr, i, j) == B(has(tr[j - 1].pc[w])) + B(rel(tr[j - 1], tr[j]))
  {
    var inside, n := (s: State) => Laps(s, w), (s: State) => if w < |s.pc| then B(has(s.pc[w])) else 0;
    Inductive();
    WholeCall(Init, Next, Inv, inside, inside, rel, n, tr, i, j);
  }

  lemma LapEnds(tr: seq<State>, j: nat, w: Tid)
    requires Run(tr) && 0 < j < |tr| && Laps(tr[j - 1], w) && w < |tr[j].pc| && tr[j].pc[w].Wait?
    ensures tr[j - 1].pc[w].Steal?
  {
    RunInv(tr, j - 1);
    assert Next(tr[j - 1], tr[j - 1 + 1]);
    LapFurther(tr[j - 1], tr[j], w);
  }

  /** A worker goes to sleep only if, on its lap from the exit tests, it has found its own deque empty
      and, after that, the global queue. */
  lemma SleepsExact(tr: seq<State>, i: nat, j: nat, w: Tid)
    requires Run(tr) && i < j < |tr| && w < |tr[i].pc| && tr[i].pc[w] == Check
    requires Throughout((s: State) => Laps(s, w), tr, i, j) && w < |tr[j].pc| && tr[j].pc[w].Wait?
    ensures Occurs((s, s') => FindsOwnEmpty(w, s, s'), tr, i, j) == 1
    ensures Occurs((s, s') => FindsQueueEmpty(w, s, s'), tr, i, j) == 1
  {
    BothTrack(w);
    LapEnds(tr, j, w);
    LapCounts(tr, i, j, w, PastOwn, (s, s') => FindsOwnEmpty(w, s, s'));
    LapCounts(tr, i, j, w, (p: PC) => p.Steal?, (s, s') => FindsQueueEmpty(w, s, s'));
  }
}
