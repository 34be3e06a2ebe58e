/** How a shutdown of the pool ends: once a flag is set the workers can all leave, without
    anybody else's help; and which tasks they leave behind in their own deques. */
module PoolShutdown {
  import opened Counting
  import opened Locks
  import opened Pool
  import opened Runs
  import FS = FastSemaphore
  import PQ = PrioQueue

  // How far everybody is from having left ---------------------------------------------------

  datatype Mode = Drained | Queued | Abandoned

  function ModeOf(g: Shared): Mode {
    if g.shtdwnNow then Abandoned else if g.q.items == multiset{} then Drained else Queued
  }

  /** How many accesses a thread at sp is away from the end of its call of the semaphore, once
      that is inactive. */
  function SemRank(sp: FS.PC): nat {
    match sp
    case Block => 1
    case Decide => 2
    case Subtract => 3
    case SpinTest(n) => 4 * n + 4
    case TryActive(who, _) => if who.InWait? then 4 * who.spins + 5 else 0
    case TryLoad(who) => if who.InWait? then 4 * who.spins + 6 else 1
    case TryCas(who, _) => if who.InWait? then 4 * who.spins + 7 else 2
    case Kernel(_, _) => 1
    case Add(_, _) => 2
    case Measure => 3
    case Close => 4
    case _ => 0
  }

  /** How far a worker is from its exit, or from taking a task that is still there. */
  function Base(m: Mode, p: PC): (r: nat)
    ensures r <= 12
  {
    match p
    case Empty => (match m case Drained => 1 case Queued => 4 case Abandoned => 2)
    case Check => (match m case Drained => 2 case Queued => 5 case Abandoned => 3)
    case Wait => (match m case Drained => 3 case Queued => 6 case Abandoned => 4)
    case Requeue => (match m case Drained => 3 case Queued => 6 case Abandoned => 4)
    case Steal => (match m case Drained => 8 case Queued => 11 case Abandoned => 9)
    case Global => (match m case Drained => 9 case Queued => 1 case Abandoned => 10)
    case Own => (match m case Drained => 10 case Queued => 2 case Abandoned => 11)
    case Now => (match m case Drained => 11 case Queued => 3 case Abandoned => 1)
    case Work => 12
    case Deliver => 1
    case CloseSem(_) => 1
    case _ => 0
  }

  function Rank(m: Mode, p: PC, sp: FS.PC): nat { Base(m, p) + SemRank(sp) }

  ghost function Ranks(s: State): seq<nat>
    requires |s.pc| == |s.sem.pc|
  {
    seq(|s.pc|, i requires 0 <= i < |s.pc| => Rank(ModeOf(s.g), s.pc[i], s.sem.pc[i]))
  }

  /** Tasks that no worker has in hand. */
  ghost function Tasks(s: State): nat { |s.g.q.items| + Sum(s.led.own, Same) }

  /** What every step of the wind-up below takes something away from. */
  ghost function Distance(s: State): nat
    requires |s.pc| == |s.sem.pc|
  {
    Tasks(s) * (12 * |s.pc| + 12) + Sum(Ranks(s), Same)
  }

  /** A step of a worker, or of a thread on its way out of the semaphore. */
  ghost predicate WindUp(s: State, s': State) {
    && |s.pc| == |s.sem.pc| == |s.latch| == |s.led.own|
    && exists t: Tid :: t < |s.pc| && Step(s, t, s') && (Worker(s.pc[t]) || InSem(s.pc[t]))
  }

  /** A worker that will not look at its own deque again if the global queue is empty. */
  predicate Past(p: PC) { Worker(p) && !p.Now? && !p.Own? && !p.Work? }

  /** What a step of the wind-up keeps. */
  ghost predicate Keeps(s: State, s': State) {
    && |s.led.own| == |s.pc| == |s'.pc| == |s'.led.own|
    && s'.g.shtdwn == s.g.shtdwn && s'.g.shtdwnNow == s.g.shtdwnNow
    && (forall u :: 0 <= u < |s.pc| && !Worker(s.pc[u]) && !InSem(s.pc[u]) ==> s'.pc[u] == s.pc[u])
    && (s.g.q.items == multiset{} && s.g.shtdwn && !s.g.shtdwnNow ==>
          && s'.g.q.items == multiset{}
          && forall u :: 0 <= u < |s.pc| && Past(s.pc[u]) ==> Past(s'.pc[u]) && s'.led.own[u] == s.led.own[u])
  }

  /** The flag of a shutdown is set. */
  predicate Flagged(g: Shared) { g.shtdwn || g.shtdwnNow }

  /** One step of the wind-up. */
  ghost predicate Closer(s: State, s': State)
    requires |s.pc| == |s.sem.pc|
  {
    WindUp(s, s') && Keeps(s, s') && |s'.pc| == |s'.sem.pc| == |s.pc| && Distance(s') < Distance(s)
  }

  // One thread moves --------------------------------------------------------------------------

  /** Nothing but the rank of thread t has changed, and that has fallen. */
  lemma RankFalls(s: State, t: Tid, s': State)
    requires t < |s.pc| == |s.sem.pc| == |s'.pc| == |s'.sem.pc|
    requires s'.pc == s.pc[t := s'.pc[t]] && s'.sem.pc == s.sem.pc[t := s'.sem.pc[t]]
    requires ModeOf(s'.g) == ModeOf(s.g) && Tasks(s') == Tasks(s)
    requires Rank(ModeOf(s.g), s'.pc[t], s'.sem.pc[t]) < Rank(ModeOf(s.g), s.pc[t], s.sem.pc[t])
    ensures Distance(s') < Distance(s)
  {
    assert Ranks(s') == Ranks(s)[t := Ranks(s')[t]];
    SumUpdate(Ranks(s), t, Ranks(s')[t], Same);
  }

  lemma {:induction false} SumShift(a: seq<nat>, b: seq<nat>, d: nat)
    requires |a| == |b| && forall i :: 0 <= i < |a| ==> a[i] <= b[i] + d
    ensures Sum(a, Same) <= Sum(b, Same) + d * |b|
  {
    if a != [] {
      SumShift(a[1..], b[1..], d);
    }
  }

  lemma OneLess(a: nat, b: nat, k: nat)
    requires b == a - 1
    ensures b * k == a * k - k
  {
  }

  lemma RanksBounded(s: State, t: Tid, s': State)
    requires t < |s.pc| == |s.sem.pc| == |s'.pc| == |s'.sem.pc|
    requires s'.pc == s.pc[t := Work] && s'.sem.pc == s.sem.pc
    ensures Sum(Ranks(s'), Same) <= Sum(Ranks(s), Same) + 12 * |s.pc|
  {
    SumShift(Ranks(s'), Ranks(s), 12);
  }

  /** A task has been taken in hand, which outweighs everything else. */
  lemma TaskFalls(s: State, t: Tid, s': State)
    requires t < |s.pc| == |s.sem.pc| == |s'.pc| == |s'.sem.pc|
    requires s'.pc == s.pc[t := Work] && s'.sem.pc == s.sem.pc
    requires Tasks(s') == Tasks(s) - 1
    ensures Distance(s') < Distance(s)
  {
    RanksBounded(s, t, s');
    OneLess(Tasks(s), Tasks(s'), 12 * |s.pc| + 12);
  }

  /** The next access of a thread inside the inactive semaphore. */
  lemma SemMove(g: FS.Shared, sp: FS.PC) returns (g': FS.Shared, sp': FS.PC)
    requires !g.active && !sp.Idle? && !sp.Answer? && (sp.Block? ==> g.kernel > 0)
    requires (sp.TryLoad? || sp.TryActive? || sp.TryCas?) ==> sp.who.InWait?
    ensures FS.Act(g, sp, g', sp') && SemRank(sp') < SemRank(sp)
  {
    g' := g;
    match sp {
      case SpinTest(n) => sp' := if n > 0 then FS.TryLoad(FS.InWait(n - 1)) else FS.Subtract;
      case TryLoad(who) => sp' := FS.TryActive(who, g.count);
      case TryActive(who, seen) => sp' := FS.SpinTest(who.spins);
      case TryCas(who, seen) =>
        if g.count == seen { g', sp' := g.(count := seen - 1), FS.Idle; } else { sp' := FS.TryLoad(who); }
      case Subtract => g', sp' := g.(count := g.count - 1), if 0 <= g.count then FS.Idle else FS.Decide;
      case Decide => sp' := FS.Idle;
      case Block => g', sp' := g.(kernel := g.kernel - 1), FS.Idle;
      case Add(count, closing) =>
        g', sp' := g.(count := g.count + count),
                   if g.count < 0 then FS.Kernel(FS.Min(count, -g.count), closing) else FS.Idle;
      case Kernel(count, closing) => g', sp' := g.(kernel := g.kernel + count), FS.Idle;
      case Close => sp' := FS.Measure;
      case Measure => sp' := FS.Add(FS.Abs(g.count), true);
      case _ => assert false; sp' := FS.Idle;
    }
  }

  lemma StepInv(s: State, t: Tid, s': State)
    requires Inv(s) && t < |s.pc| && Step(s, t, s')
    ensures Inv(s')
  {
    assert Next(s, s');
    NextInv(s, s');
  }

  /** What a mover may count on: the flag has been set, so the semaphore is closed. */
  lemma FlagCloses(s: State)
    requires Inv(s) && Flagged(s.g)
    ensures !s.sem.g.active && !s.g.q.active
    ensures Count(s.sem.pc, FS.Blocked) <= FS.Tokens(s.sem)
  {
  }

  lemma SemCloser(s: State, t: Tid) returns (s': State)
    requires Inv(s) && Flagged(s.g) && t < |s.pc| && InSem(s.pc[t]) && s.sem.pc[t] != FS.Idle
    requires s.sem.pc[t].Block? ==> s.sem.g.kernel > 0
    ensures Closer(s, s') && Inv(s')
  {
    FlagCloses(s);
    assert Fits(s.pc[t], s.sem.pc[t]);
    var sp := s.sem.pc[t];
    var g', sp' := SemMove(s.sem.g, sp);
    s' := s.(sem := s.sem.(g := g', pc := s.sem.pc[t := sp'], h := FS.Record(s.sem.h, s.sem.g, sp)));
    assert FS.Step(s.sem, t, s'.sem);
    AssembleSem(s, t, s');
    StepInv(s, t, s');
    assert s.pc[t := s.pc[t]] == s.pc;
    RankFalls(s, t, s');
  }

  ghost function Returned(s: State, t: Tid): State
    requires t < |s.pc|
  {
    if s.pc[t].Deliver? then s.(g := s.g.(owner := Free), pc := s.pc[t := Out]) else s.(pc := s.pc[t := Check])
  }

  lemma ReturnMoves(s: State, t: Tid)
    requires Inv(s) && t < |s.pc| && s.sem.pc[t] == FS.Idle && (s.pc[t].Wait? || s.pc[t].Requeue? || s.pc[t].Deliver?)
    ensures Step(s, t, Returned(s, t)) && Keeps(s, Returned(s, t))
  {
    assert s.latch == s.latch[t := s.latch[t]];
    AssembleReturn(s, t, Returned(s, t));
  }

  lemma ReturnCloser(s: State, t: Tid) returns (s': State)
    requires Inv(s) && t < |s.pc| && s.sem.pc[t] == FS.Idle && (s.pc[t].Wait? || s.pc[t].Requeue? || s.pc[t].Deliver?)
    ensures Closer(s, s') && Inv(s')
  {
    s' := Returned(s, t);
    ReturnMoves(s, t);
    ReturnNearer(s, t);
    StepInv(s, t, s');
  }

  lemma ReturnNearer(s: State, t: Tid)
    requires t < |s.pc| == |s.sem.pc| && s.sem.pc[t] == FS.Idle
    requires s.pc[t].Wait? || s.pc[t].Requeue? || s.pc[t].Deliver?
    ensures Distance(Returned(s, t)) < Distance(s)
  {
    assert s.sem.pc[t := s.sem.pc[t]] == s.sem.pc;
    RankFalls(s, t, Returned(s, t));
  }

  /** A worker starts to wait. */
  lemma SleepCloser(s: State, t: Tid) returns (s': State)
    requires Inv(s) && t < |s.pc| && s.pc[t].Steal?
    ensures Closer(s, s') && Inv(s')
  {
    assert Fits(s.pc[t], s.sem.pc[t]);
    s' := s.(pc := s.pc[t := Wait], sem := s.sem.(pc := s.sem.pc[t := FS.SpinTest(0)]));
    assert FS.Step(s.sem, t, s'.sem);
    assert s.latch == s.latch[t := s.latch[t]];
    Assemble(s, t, s');
    StepInv(s, t, s');
    RankFalls(s, t, s');
  }

  ghost function Took(s: State, t: Tid, x: PQ.Item): State
    requires t < |s.pc|
  {
    s.(g := s.g.(q := PQ.WakeProducers(PQ.Pop(s.g.q, x))), pc := s.pc[t := Work], taker := s.taker + [t])
  }

  lemma TakeMoves(s: State, t: Tid, x: PQ.Item)
    requires Standing(s, t) && s.pc[t].Global? && s.g.owner == Free && PQ.TakeStep(s.g.q, x, Took(s, t, x).g.q)
    ensures Step(s, t, Took(s, t, x)) && Keeps(s, Took(s, t, x))
  {
    PQ.WakeKeeps(PQ.Pop(s.g.q, x));
    assert s.latch == s.latch[t := s.latch[t]];
    Assemble(s, t, Took(s, t, x));
  }

  lemma TakeNearer(s: State, t: Tid, x: PQ.Item)
    requires Standing(s, t) && x in s.g.q.items
    ensures Distance(Took(s, t, x)) < Distance(s)
  {
    PQ.WakeKeeps(PQ.Pop(s.g.q, x));
    assert s.g.q.items == Took(s, t, x).g.q.items + multiset{x};
    TaskFalls(s, t, Took(s, t, x));
  }

  /** A worker takes a task from the global queue. */
  lemma TakeCloser(s: State, t: Tid) returns (s': State)
    requires Inv(s) && Standing(s, t) && s.pc[t].Global? && s.g.owner == Free && s.g.q.items != multiset{}
    ensures Closer(s, s') && Inv(s')
  {
    var x := PQ.TopExists(s.g.q.items);
    s' := Took(s, t, x);
    TakeMoves(s, t, x);
    TakeNearer(s, t, x);
    StepInv(s, t, s');
  }

  /** Where a worker goes that takes nothing. */
  function Walk(g: Shared, latched: bool, p: PC): PC {
    match p
    case Check => if latched || g.shtdwn then Empty else Now
    case Empty => if g.q.items == multiset{} then Exit else Now
    case Now => if g.shtdwnNow then Exit else Own
    case Own => Global
    case Global => Steal
    case _ => Check
  }

  predicate Strolls(g: Shared, own: nat, p: PC) {
    || p.Check? || p.Now? || p.Work?
    || (p.Own? && own == 0)
    || (p.Empty? && g.owner == Free)
    || (p.Global? && g.owner == Free && g.q.items == multiset{})
  }

  lemma WalkFalls(g: Shared, own: nat, latched: bool, t: Tid, p: PC)
    requires Strolls(g, own, p) && Flagged(g) && (latched ==> g.shtdwn)
    ensures var p' := Walk(g, latched, p);
            && WorkerStep(g, p, latched, t, g, p', FS.Idle) && !InSem(p')
            && Base(ModeOf(g), p') < Base(ModeOf(g), p)
            && Worker(p')
            && (g.q.items == multiset{} && g.shtdwn && !g.shtdwnNow && Past(p) ==> Past(p'))
  {
  }

  /** Thread t is outside the semaphore, and knows of a flag only once it is set. */
  predicate Standing(s: State, t: Tid) {
    && t < |s.pc| == |s.sem.pc| == |s.latch| == |s.led.own|
    && s.sem.pc[t] == FS.Idle && (s.latch[t] ==> s.g.shtdwn)
  }

  lemma Stands(s: State, t: Tid)
    requires Inv(s) && t < |s.pc| && !InSem(s.pc[t])
    ensures Standing(s, t)
  {
    assert Fits(s.pc[t], s.sem.pc[t]);
  }

  ghost function Walked(s: State, t: Tid): State
    requires Standing(s, t)
  {
    var p := s.pc[t];
    s.(pc := s.pc[t := Walk(s.g, s.latch[t], p)], latch := s.latch[t := s.latch[t] || (p.Check? && s.g.shtdwn)],
       led := if p.Work? then s.led.(completed := s.led.completed + 1) else s.led)
  }

  lemma WalkMoves(s: State, t: Tid)
    requires Standing(s, t) && Flagged(s.g) && Strolls(s.g, s.led.own[t], s.pc[t])
    ensures Step(s, t, Walked(s, t)) && Worker(s.pc[t]) && Keeps(s, Walked(s, t))
  {
    WalkFalls(s.g, s.led.own[t], s.latch[t], t, s.pc[t]);
    Assemble(s, t, Walked(s, t));
  }

  lemma WalkNearer(s: State, t: Tid)
    requires Standing(s, t) && Flagged(s.g) && Strolls(s.g, s.led.own[t], s.pc[t])
    ensures Distance(Walked(s, t)) < Distance(s)
  {
    WalkFalls(s.g, s.led.own[t], s.latch[t], t, s.pc[t]);
    assert s.sem.pc[t := s.sem.pc[t]] == s.sem.pc;
    RankFalls(s, t, Walked(s, t));
  }

  lemma WalkCloser(s: State, t: Tid) returns (s': State)
    requires Inv(s) && Flagged(s.g) && Standing(s, t) && Strolls(s.g, s.led.own[t], s.pc[t])
    ensures Closer(s, s') && Inv(s') && s' == Walked(s, t)
  {
    s' := Walked(s, t);
    WalkMoves(s, t);
    WalkNearer(s, t);
    StepInv(s, t, s');
  }

  ghost function Owned(s: State, t: Tid): State
    requires Standing(s, t) && s.led.own[t] > 0
  {
    s.(pc := s.pc[t := Work], led := s.led.(own := s.led.own[t := s.led.own[t] - 1]))
  }

  lemma OwnNearer(s: State, t: Tid)
    requires Standing(s, t) && s.led.own[t] > 0
    ensures Distance(Owned(s, t)) < Distance(s)
  {
    SumUpdate(s.led.own, t, s.led.own[t] - 1, Same);
    TaskFalls(s, t, Owned(s, t));
  }

  lemma OwnMoves(s: State, t: Tid)
    requires Standing(s, t) && s.pc[t].Own? && s.led.own[t] > 0
    ensures Step(s, t, Owned(s, t)) && Keeps(s, Owned(s, t))
  {
    assert s.latch == s.latch[t := s.latch[t]];
    Assemble(s, t, Owned(s, t));
  }

  /** A worker takes a task from its own deque. */
  lemma OwnCloser(s: State, t: Tid) returns (s': State)
    requires Inv(s) && Standing(s, t) && s.pc[t].Own? && s.led.own[t] > 0
    ensures Closer(s, s') && Inv(s') && s' == Owned(s, t)
  {
    s' := Owned(s, t);
    OwnMoves(s, t);
    OwnNearer(s, t);
    StepInv(s, t, s');
  }

  // Everybody leaves --------------------------------------------------------------------------

  /** A thread that is blocked on the semaphore can go on, or somebody is about to post. */
  lemma UnblockCloser(s: State, w: Tid) returns (s': State)
    requires Inv(s) && Flagged(s.g) && w < |s.pc| && s.sem.pc[w].Block?
    ensures Closer(s, s') && Inv(s')
  {
    FlagCloses(s);
    assert Fits(s.pc[w], s.sem.pc[w]);
    if s.sem.g.kernel > 0 {
      s' := SemCloser(s, w);
    } else {
      CountHas(s.sem.pc, w, FS.Blocked);
      var t := SumWitness(s.sem.pc, FS.Promised);
      assert Fits(s.pc[t], s.sem.pc[t]);
      s' := SemCloser(s, t);
    }
  }

  /** A thread inside a call of the semaphore. */
  lemma InSemCloser(s: State, t: Tid) returns (s': State)
    requires Inv(s) && Flagged(s.g) && t < |s.pc| && (s.pc[t].Wait? || s.pc[t].Requeue? || s.pc[t].Deliver?)
    ensures Closer(s, s') && Inv(s')
  {
    if s.sem.pc[t] == FS.Idle {
      s' := ReturnCloser(s, t);
    } else if s.sem.pc[t].Block? {
      s' := UnblockCloser(s, t);
    } else {
      s' := SemCloser(s, t);
    }
  }

  /** While a worker has not left, some worker, or some thread on its way out of a post, has a
      step that brings the end of the shutdown nearer. */
  lemma SomeCloser(s: State, w: Tid) returns (s': State)
    requires Inv(s) && Flagged(s.g) && w < |s.pc| && Worker(s.pc[w]) && !s.pc[w].Exit?
    ensures Closer(s, s') && Inv(s')
  {
    if OwnerStands(s) {
      s' := InSemCloser(s, s.g.owner.t);
    } else if s.pc[w].Wait? || s.pc[w].Requeue? {
      s' := InSemCloser(s, w);
    } else if s.pc[w].Steal? {
      s' := SleepCloser(s, w);
    } else if s.pc[w].Own? && s.led.own[w] > 0 {
      Stands(s, w);
      s' := OwnCloser(s, w);
    } else if s.pc[w].Global? && s.g.q.items != multiset{} {
      OwnerFree(s);
      Stands(s, w);
      s' := TakeCloser(s, w);
    } else {
      OwnerFree(s);
      Stands(s, w);
      s' := WalkCloser(s, w);
    }
  }

  predicate OwnerStands(s: State) { s.g.owner.By? && s.g.owner.t < |s.pc| && s.pc[s.g.owner.t].Deliver? }

  lemma OwnerFree(s: State)
    requires Inv(s) && !OwnerStands(s)
    ensures s.g.owner == Free
  {
  }

  lemma NextCloser(s: State) returns (s': State)
    requires Inv(s) && Flagged(s.g) && !AllExited(s.pc)
    ensures Inv(s') && Flagged(s'.g) && WindUp(s, s') && Keeps(s, s') && Distance(s') < Distance(s)
  {
    var w :| 0 <= w < |s.pc| && Worker(s.pc[w]) && s.pc[w] != Exit;
    s' := SomeCloser(s, w);
  }

  /** Without anybody else's help all workers leave, within a bounded number of steps. */
  lemma {:induction false} AllLeave(s: State) returns (tr: seq<State>)
    requires Inv(s) && Flagged(s.g)
    ensures |tr| > 0 && tr[0] == s && Chain(WindUp, tr) && |tr| <= Distance(s) + 1
    ensures var e := tr[|tr| - 1]; Inv(e) && AllExited(e.pc) && Keeps(s, e)
    decreases Distance(s)
  {
    if AllExited(s.pc) {
      tr := ChainOne(WindUp, s);
    } else {
      var s' := NextCloser(s);
      var rest := AllLeave(s');
      KeepsOn(s, s', rest[|rest| - 1]);
      tr := ChainPrepend(WindUp, s, rest);
    }
  }

  lemma KeepsOn(a: State, b: State, c: State)
    requires Keeps(a, b) && Keeps(b, c)
    ensures Keeps(a, c)
  {
  }

  /** How long it takes at most: one lap of the loop for every task, and the way out of the
      semaphore for every thread. */
  lemma DistanceBound(s: State, k: nat)
    requires |s.pc| == |s.sem.pc| && forall t :: 0 <= t < |s.pc| ==> SemRank(s.sem.pc[t]) <= k
    ensures Distance(s) <= Tasks(s) * (12 * |s.pc| + 12) + (12 + k) * |s.pc|
  {
    var zeros := seq(|s.pc|, i => 0);
    SumZero(zeros, Same);
    SumShift(Ranks(s), zeros, 12 + k);
  }

  /** After either flag is set the workers, with the threads that are inside a post, all leave
      by themselves. */
  lemma ShutdownEnds(tr: seq<State>, i: nat) returns (ext: seq<State>)
    requires Run(tr) && i < |tr| && Flagged(tr[i].g)
    ensures |tr[i].pc| == |tr[i].sem.pc|
    ensures |ext| > 0 && ext[0] == tr[i] && Chain(WindUp, ext) && |ext| <= Distance(tr[i]) + 1
    ensures AllExited(ext[|ext| - 1].pc)
  {
    RunInv(tr, i);
    ext := AllLeave(tr[i]);
  }

  // What else holds along a run ------------------------------------------------------------------

  /** Inside join_all, or past it. */
  predicate Joins(p: PC) { p.Join? || p.Done? }

  /** Somebody joins the workers once a flag is set; only workers have deques. */
  ghost predicate More(s: State) {
    && |s.led.own| == |s.pc|
    && (Flagged(s.g) ==> exists d :: 0 <= d < |s.pc| && Joins(s.pc[d]))
    && (forall u :: 0 <= u < |s.pc| && s.led.own[u] > 0 ==> Worker(s.pc[u]))
  }

  /** What a step of thread t at p does to the flags and to what was accepted. */
  ghost predicate Quiet(g: Shared, p: PC, g': Shared, p': PC) {
    && (Joins(p) ==> Joins(p')) && (Flagged(g') && !Flagged(g) ==> Joins(p'))
    && (!g.q.active ==> !g'.q.active && g'.q.accepted == g.q.accepted)
  }

  lemma WorkerQuiet(g: Shared, p: PC, latched: bool, t: Tid, g': Shared, p': PC, sp': FS.PC)
    requires WorkerStep(g, p, latched, t, g', p', sp') && Worker(p)
    ensures Quiet(g, p, g', p')
  {
    if p.Global? && g.q.items != multiset{} {
      var x :| PQ.TakeStep(g.q, x, g'.q);
      PQ.WakeKeeps(PQ.Pop(g.q, x));
    }
  }

  lemma OtherQuiet(g: Shared, p: PC, allExited: bool, t: Tid, g': Shared, p': PC, sp': FS.PC)
    requires PQ.Inv(g.q) && OtherStep(g, p, allExited, t, g', p', sp')
    ensures Quiet(g, p, g', p')
  {
    match p {
      case Submit(x) =>
        var end :| PQ.PutStep(g.q, x, g'.q, end) && PutLeaves(g, x, end, t, g', p', sp');
      case Sleep(x) =>
        var n, end :| PQ.ResumeStep(g.q, x, n, false, g'.q, end) && PutLeaves(g, x, end, t, g', p', sp');
      case _ =>
    }
  }

  lemma StepQuiet(s: State, t: Tid, s': State)
    requires Inv(s) && t < |s.pc| && Step(s, t, s')
    ensures Quiet(s.g, s.pc[t], s'.g, s'.pc[t])
  {
    assert Fits(s.pc[t], s.sem.pc[t]);
    if InSem(s.pc[t]) {
    } else if Worker(s.pc[t]) {
      WorkerQuiet(s.g, s.pc[t], s.latch[t], t, s'.g, s'.pc[t], s'.sem.pc[t]);
    } else {
      OtherQuiet(s.g, s.pc[t], AllExited(s.pc), t, s'.g, s'.pc[t], s'.sem.pc[t]);
    }
  }

  /** The books: only a worker at Work adds to a deque, and to its own. */
  lemma BooksMove(led: Ledger, p: PC, t: Tid, led': Ledger, p': PC, u: Tid)
    requires t < |led.own| && u < |led.own| && Books(led, p, t, led', p')
    ensures |led'.own| == |led.own| && led'.completed >= led.completed
    ensures led'.own[u] > led.own[u] ==> u == t && p.Work?
    ensures u == t && led'.own[u] != led.own[u] ==> p.Work? || p.Own?
  {
  }

  /** What a step keeps, as seen from outside. */
  lemma StepSeen(s: State, t: Tid, s': State)
    requires Inv(s) && t < |s.pc| && Step(s, t, s')
    ensures |s'.pc| == |s.pc| && s'.pc == s.pc[t := s'.pc[t]] && Worker(s'.pc[t]) == Worker(s.pc[t])
    ensures Books(s.led, s.pc[t], t, s'.led, s'.pc[t]) && (s.pc[t].Exit? ==> s'.pc[t].Exit?)
    ensures Flagged(s.g) ==> Flagged(s'.g)
  {
    StepEffects(s, t, s');
  }

  lemma DequesKept(s: State, t: Tid, s': State)
    requires Inv(s) && More(s) && t < |s.pc| && Step(s, t, s')
    ensures |s'.pc| == |s.pc| == |s'.led.own|
    ensures forall u :: 0 <= u < |s'.pc| && s'.led.own[u] > 0 ==> Worker(s'.pc[u])
  {
    StepSeen(s, t, s');
    forall u: Tid | u < |s.pc| ensures |s'.led.own| == |s.pc| && (s'.led.own[u] > 0 ==> Worker(s'.pc[u])) {
      BooksMove(s.led, s.pc[t], t, s'.led, s'.pc[t], u);
    }
  }

  lemma JoinerKept(s: State, t: Tid, s': State)
    requires t < |s.pc| == |s'.pc| && s'.pc == s.pc[t := s'.pc[t]] && Quiet(s.g, s.pc[t], s'.g, s'.pc[t])
    requires Flagged(s.g) ==> exists d :: 0 <= d < |s.pc| && Joins(s.pc[d])
    ensures Flagged(s'.g) ==> exists d :: 0 <= d < |s'.pc| && Joins(s'.pc[d])
  {
    if Flagged(s.g) {
      var d :| 0 <= d < |s.pc| && Joins(s.pc[d]);
      assert Joins(s'.pc[d]);
    } else if Flagged(s'.g) {
      assert Joins(s'.pc[t]);
    }
  }

  lemma MoreKept(s: State, s': State)
    requires Inv(s) && More(s) && Next(s, s')
    ensures More(s')
  {
    var t: Tid :| t < |s.pc| && Step(s, t, s');
    StepQuiet(s, t, s');
    StepSeen(s, t, s');
    DequesKept(s, t, s');
    JoinerKept(s, t, s');
  }

  lemma RunMore(tr: seq<State>, i: nat)
    requires Run(tr) && i < |tr|
    ensures Inv(tr[i]) && More(tr[i])
  {
    var both := (s: State) => Inv(s) && More(s);
    forall s | Init(s) ensures both(s) { InitInv(s); }
    forall s, s' | both(s) && Next(s, s') ensures both(s') {
      NextInv(s, s');
      MoreKept(s, s');
    }
    Always(Init, Next, both, tr, i);
  }

  // Which exits leave a task behind ---------------------------------------------------------------

  /** Worker w leaves its loop between k and k + 1. */
  ghost predicate ExitsAt(tr: seq<State>, k: nat, w: Tid) {
    && k + 1 < |tr| && w < |tr[k].pc| == |tr[k + 1].pc| == |tr[k].led.own| == |tr[k + 1].led.own|
    && Worker(tr[k].pc[w]) && !tr[k].pc[w].Exit? && tr[k + 1].pc[w].Exit?
  }

  lemma ExitGuard(s: State, w: Tid, s': State)
    requires Inv(s) && Next(s, s') && w < |s.pc| == |s'.pc| && Worker(s.pc[w]) && !s.pc[w].Exit? && s'.pc[w].Exit?
    ensures |s'.led.own| == |s.led.own| && s'.led.own[w] == s.led.own[w]
    ensures (s.pc[w].Empty? && s.g.shtdwn && s.g.q.items == multiset{}) || (s.pc[w].Now? && s.g.shtdwnNow)
  {
    var t: Tid :| t < |s.pc| && Step(s, t, s');
    StepSeen(s, t, s');
    assert t == w && Closing(s.g, s.sem, s.pc[w], s.sem.pc[w]) && Fits(s.pc[w], s.sem.pc[w]);
    BooksMove(s.led, s.pc[t], t, s'.led, s'.pc[t], w);
  }

  /** The branch at which a worker leaves: `shutdown__() && pool_.queue_.empty()`, or
      shutdown_now__. Its own deque is as it was. */
  lemma ExitBranch(tr: seq<State>, k: nat, w: Tid)
    requires Run(tr) && ExitsAt(tr, k, w)
    ensures tr[k + 1].led.own[w] == tr[k].led.own[w]
    ensures (tr[k].pc[w].Empty? && tr[k].g.shtdwn && tr[k].g.q.items == multiset{})
         || (tr[k].pc[w].Now? && tr[k].g.shtdwnNow)
  {
    RunInv(tr, k);
    assert Next(tr[k], tr[k + 1]);
    ExitGuard(tr[k], w, tr[k + 1]);
  }

  lemma DequeShrinks(s: State, s': State, w: Tid)
    requires Inv(s) && Next(s, s') && w < |s.pc| && s.pc[w].Exit?
    ensures w < |s'.pc| == |s'.led.own| && s'.pc[w].Exit? && s'.led.own[w] <= s.led.own[w]
  {
    var t: Tid :| t < |s.pc| && Step(s, t, s');
    StepSeen(s, t, s');
    BooksMove(s.led, s.pc[t], t, s'.led, s'.pc[t], w);
  }

  /** A deque never grows after its worker has left. */
  lemma DequeNeverGrows(tr: seq<State>, k: nat, m: nat, w: Tid)
    requires Run(tr) && k <= m < |tr| && w < |tr[k].pc| && tr[k].pc[w].Exit?
    ensures w < |tr[k].led.own| && w < |tr[m].pc| == |tr[m].led.own|
    ensures tr[m].pc[w].Exit? && tr[m].led.own[w] <= tr[k].led.own[w]
  {
    RunInv(tr, k);
    var n := tr[k].led.own[w];
    var shrunk := (s: State) => w < |s.pc| == |s.led.own| && s.pc[w].Exit? && s.led.own[w] <= n;
    forall s | Init(s) ensures Inv(s) { InitInv(s); }
    forall s, s' | Inv(s) && Next(s, s') ensures Inv(s') { NextInv(s, s'); }
    forall s, s' | Inv(s) && Next(s, s') && shrunk(s) ensures shrunk(s') { DequeShrinks(s, s', w); }
    Forever(Init, Next, Inv, shrunk, tr, k, m);
  }

  lemma Backwards(s: State, s': State, w: Tid)
    requires Inv(s) && Inv(s') && Next(s, s') && w < |s'.pc| && s'.pc[w].Exit?
    ensures w < |s.pc| == |s'.pc| == |s.led.own| == |s'.led.own| && Worker(s.pc[w])
  {
    var t: Tid :| t < |s.pc| && Step(s, t, s');
    StepSeen(s, t, s');
  }

  lemma RunBackwards(tr: seq<State>, i: nat, w: Tid)
    requires Run(tr) && i + 1 < |tr| && w < |tr[i + 1].pc| && tr[i + 1].pc[w].Exit?
    ensures w < |tr[i].pc| && (tr[i].pc[w].Exit? || ExitsAt(tr, i, w))
  {
    RunInv(tr, i);
    RunInv(tr, i + 1);
    assert Next(tr[i], tr[i + 1]);
    Backwards(tr[i], tr[i + 1], w);
  }

  lemma NobodyLeftAtFirst(s: State, w: Tid)
    requires Init(s) && w < |s.pc|
    ensures !s.pc[w].Exit?
  {
  }

  /** A worker that has left has left at some step. */
  lemma {:induction false} LeftSomewhen(tr: seq<State>, i: nat, w: Tid) returns (k: nat)
    requires Run(tr) && i < |tr| && w < |tr[i].pc| && tr[i].pc[w].Exit?
    ensures k < i && ExitsAt(tr, k, w)
  {
    if i == 0 {
      NobodyLeftAtFirst(tr[0], w);
    } else {
      RunBackwards(tr, i - 1, w);
      if tr[i - 1].pc[w].Exit? {
        k := LeftSomewhen(tr, i - 1, w);
      } else {
        k := i - 1;
      }
    }
  }

  /** Worker w makes its exit step at k although its own deque holds a task, and up to i nobody
      steals that deque empty. */
  ghost predicate LeftBehind(tr: seq<State>, k: nat, i: nat, w: Tid) {
    && k < i < |tr| && ExitsAt(tr, k, w)
    && forall m :: k <= m <= i ==> w < |tr[m].led.own| && tr[m].led.own[w] > 0
  }

  lemma FoundLeft(tr: seq<State>, i: nat, w: Tid) returns (k: nat)
    requires Run(tr) && i < |tr| && w < |tr[i].pc| == |tr[i].led.own| && tr[i].pc[w].Exit? && tr[i].led.own[w] > 0
    ensures LeftBehind(tr, k, i, w)
  {
    k := LeftSomewhen(tr, i, w);
    ExitBranch(tr, k, w);
    DequeNeverGrows(tr, k + 1, i, w);
    forall m | k <= m <= i ensures w < |tr[m].led.own| && tr[m].led.own[w] > 0 {
      if k < m {
        DequeNeverGrows(tr, k + 1, m, w);
        DequeNeverGrows(tr, m, i, w);
      }
    }
  }

  /** When shutdown has returned, an accepted task is not complete if and only if some worker
      passed its exit test while its own deque held a task, and no thief emptied that deque
      afterwards. */
  lemma ShutdownLeavesIff(tr: seq<State>, i: nat, d: Tid, v: Tid)
    requires Run(tr) && i < |tr| && d < |tr[i].pc| && tr[i].pc[d].Done? && !tr[i].g.shtdwnNow
    requires v < |tr[i].pc| && Worker(tr[i].pc[v])
    ensures tr[i].led.completed < |tr[i].g.q.accepted| <==> exists k: nat, w: Tid :: LeftBehind(tr, k, i, w)
  {
    var s := tr[i];
    RunMore(tr, i);
    RestInDeques(tr, i, d, v);
    ShutdownJoins(tr, i, d, v);
    ShutdownDrains(tr, i, v);
    EveryTaskAccounted(tr, i);
    if s.led.completed < |s.g.q.accepted| {
      var w: Tid :| w < |s.led.own| && s.led.own[w] != 0;
      ShutdownJoins(tr, i, d, w);
      var k := FoundLeft(tr, i, w);
    }
  }

  // Which states a shutdown can still leave a task from ---------------------------------------------

  lemma {:induction false} WindUpIsNext(tr: seq<State>)
    requires Chain(WindUp, tr)
    ensures Chain(Next, tr)
  {
    forall i | 0 <= i < |tr| - 1 ensures Next(tr[i], tr[i + 1]) {
      assert WindUp(tr[i], tr[i + 1]);
    }
  }

  /** The join of the workers ends. */
  lemma JoinEnds(s: State, d: Tid) returns (tr: seq<State>)
    requires Inv(s) && AllExited(s.pc) && d < |s.pc| && Joins(s.pc[d])
    ensures |tr| > 0 && tr[0] == s && Chain(Next, tr)
    ensures var e := tr[|tr| - 1]; Inv(e) && d < |e.pc| && e.pc[d].Done? && e.led == s.led && e.g == s.g
  {
    if s.pc[d].Done? {
      tr := [s];
    } else {
      assert Fits(s.pc[d], s.sem.pc[d]);
      var e := s.(pc := s.pc[d := Done]);
      assert s.latch == s.latch[d := s.latch[d]];
      Assemble(s, d, e);
      StepInv(s, d, e);
      tr := [s, e];
    }
  }

  /** The global queue is drained for good, by a shutdown that is not shutdown_now. */
  predicate DrainedFor(s: State) { s.g.shtdwn && !s.g.shtdwnNow && s.g.q.items == multiset{} }

  /** ext leads from s to the return of shutdown, with n tasks left in the deque of worker w. */
  ghost predicate Leaves(s: State, ext: seq<State>, w: Tid, n: nat) {
    && |ext| > 0 && ext[0] == s && Chain(Next, ext)
    && var e := ext[|ext| - 1];
       && Inv(e) && w < |e.led.own| && e.led.own[w] == n && AllExited(e.pc) && !e.g.shtdwnNow
       && exists d :: 0 <= d < |e.pc| && e.pc[d].Done?
  }

  /** A worker past its own deque leaves what is in it. */
  lemma PastLeaves(s: State, w: Tid) returns (ext: seq<State>)
    requires Inv(s) && More(s) && DrainedFor(s) && w < |s.pc| && Past(s.pc[w])
    ensures Leaves(s, ext, w, s.led.own[w])
  {
    var tr := AllLeave(s);
    var e := tr[|tr| - 1];
    WindUpIsNext(tr);
    var d :| 0 <= d < |s.pc| && Joins(s.pc[d]);
    assert e.pc[d] == s.pc[d];
    var rest := JoinEnds(e, d);
    ext := ChainJoin(Next, tr, rest);
  }

  /** The next access of a worker in the loop. */
  lemma PrependStep(s: State, t: Tid, s': State, rest: seq<State>, w: Tid, n: nat) returns (ext: seq<State>)
    requires Inv(s) && t < |s.pc| && Step(s, t, s') && Leaves(s', rest, w, n)
    ensures Leaves(s, ext, w, n)
  {
    assert Next(s, s');
    ext := ChainPrepend(Next, s, rest);
  }

  lemma MoreStep(s: State, t: Tid, s': State)
    requires Inv(s) && More(s) && t < |s.pc| && Step(s, t, s')
    ensures Inv(s') && More(s')
  {
    assert Next(s, s');
    NextInv(s, s');
    MoreKept(s, s');
  }

  ghost function PutBack(s: State, w: Tid): State
    requires Standing(s, w)
  {
    s.(pc := s.pc[w := Requeue], sem := s.sem.(pc := s.sem.pc[w := FS.Add(1, false)]),
       led := s.led.(own := s.led.own[w := s.led.own[w] + 1], requeued := s.led.requeued + 1))
  }

  lemma PutBackMoves(s: State, w: Tid)
    requires Standing(s, w) && s.pc[w].Work?
    ensures Step(s, w, PutBack(s, w))
  {
    assert FS.Step(s.sem, w, PutBack(s, w).sem);
    assert s.latch == s.latch[w := s.latch[w]];
    Assemble(s, w, PutBack(s, w));
  }

  /** From every state with the queue drained and a worker at work, shutdown can return with that
      worker's task left in its deque: the task is not complete after this run. */
  lemma WorkLeaves(s: State, w: Tid) returns (ext: seq<State>)
    requires Inv(s) && More(s) && DrainedFor(s) && w < |s.pc| && s.pc[w].Work?
    ensures Leaves(s, ext, w, s.led.own[w] + 1)
  {
    Stands(s, w);
    PutBackMoves(s, w);
    var s' := PutBack(s, w);
    MoreStep(s, w, s');
    var rest := PastLeaves(s', w);
    ext := PrependStep(s, w, s', rest, w, s.led.own[w] + 1);
  }

  /** A worker about to take a task from its own deque. */
  lemma OwnLeaves(s: State, w: Tid) returns (ext: seq<State>)
    requires Inv(s) && More(s) && DrainedFor(s) && w < |s.pc| && s.pc[w].Own? && s.led.own[w] > 0
    ensures Leaves(s, ext, w, s.led.own[w])
  {
    Stands(s, w);
    OwnMoves(s, w);
    var s' := Owned(s, w);
    MoreStep(s, w, s');
    var rest := WorkLeaves(s', w);
    ext := PrependStep(s, w, s', rest, w, s.led.own[w]);
  }

  lemma NowLeaves(s: State, w: Tid) returns (ext: seq<State>)
    requires Inv(s) && More(s) && DrainedFor(s) && w < |s.pc| && s.pc[w].Now? && s.led.own[w] > 0
    ensures Leaves(s, ext, w, s.led.own[w])
  {
    Stands(s, w);
    WalkMoves(s, w);
    var s' := Walked(s, w);
    MoreStep(s, w, s');
    var rest := OwnLeaves(s', w);
    ext := PrependStep(s, w, s', rest, w, s.led.own[w]);
  }

  /** A task that is in a worker's hands or in its deque can be left there. */
  lemma HeldLeaves(s: State, w: Tid) returns (ext: seq<State>, n: nat)
    requires Inv(s) && More(s) && DrainedFor(s) && w < |s.pc| && (s.pc[w].Work? || s.led.own[w] > 0)
    ensures n > 0 && Leaves(s, ext, w, n)
  {
    if s.pc[w].Work? {
      n := s.led.own[w] + 1;
      ext := WorkLeaves(s, w);
    } else {
      n := s.led.own[w];
      if s.pc[w].Own? {
        ext := OwnLeaves(s, w);
      } else if s.pc[w].Now? {
        ext := NowLeaves(s, w);
      } else {
        ext := PastLeaves(s, w);
      }
    }
  }

  /** Everything the inactive queue ever accepted is complete. */
  ghost predicate AllComplete(s: State) { Inv(s) && !s.g.q.active && s.led.completed == |s.g.q.accepted| }

  lemma AllCompleteKept(s: State, s': State)
    requires AllComplete(s) && Next(s, s')
    ensures AllComplete(s')
  {
    var t: Tid :| t < |s.pc| && Step(s, t, s');
    StepQuiet(s, t, s');
    StepSeen(s, t, s');
    BooksMove(s.led, s.pc[t], t, s'.led, s'.pc[t], t);
    NextInv(s, s');
    Accounted(s');
  }

  lemma AllCompleteOn(ext: seq<State>, k: nat)
    requires k < |ext| && AllComplete(ext[0]) && Chain(Next, ext)
    ensures AllComplete(ext[k])
  {
    forall s, s' | AllComplete(s) && Next(s, s') ensures AllComplete(s') { AllCompleteKept(s, s'); }
    ChainKeeps(Next, AllComplete, ext, k);
  }

  lemma NothingLeft(s: State, ext: seq<State>, w: Tid, n: nat)
    requires AllComplete(s) && Leaves(s, ext, w, n)
    ensures n == 0
  {
    AllCompleteOn(ext, |ext| - 1);
    NothingHeld(ext[|ext| - 1], w);
  }

  lemma NothingHeld(e: State, w: Tid)
    requires AllComplete(e) && w < |e.led.own|
    ensures e.led.own[w] == 0
  {
    Accounted(e);
    SumAtLeast(e.led.own, w, Same);
  }

  lemma SomebodyHolds(s: State) returns (w: Tid)
    requires Inv(s) && s.g.q.items == multiset{} && s.led.completed < |s.g.q.accepted|
    ensures w < |s.pc| && (s.pc[w].Work? || s.led.own[w] > 0)
  {
    Accounted(s);
    if Count(s.pc, Busy) > 0 {
      w := CountWitness(s.pc, Busy);
    } else {
      w := SumWitness(s.led.own, Same);
    }
  }

  /** Once a shutdown has been announced and the global queue is drained, the shutdown can still
      return with a task left behind if and only if not every accepted task is complete by then. */
  lemma ShutdownMayLeaveIff(tr: seq<State>, i: nat)
    requires Run(tr) && i < |tr| && DrainedFor(tr[i])
    ensures (exists ext: seq<State>, w: Tid, n: nat :: n > 0 && Leaves(tr[i], ext, w, n))
       <==> tr[i].led.completed < |tr[i].g.q.accepted|
  {
    var s := tr[i];
    RunMore(tr, i);
    Accounted(s);
    FlagCloses(s);
    if s.led.completed < |s.g.q.accepted| {
      var w := SomebodyHolds(s);
      var ext, n := HeldLeaves(s, w);
    } else {
      forall ext: seq<State>, w: Tid, n: nat | Leaves(s, ext, w, n) ensures n == 0 {
        NothingLeft(s, ext, w, n);
      }
    }
  }

  /** In particular a worker at work can leave its task. */
  lemma WorkerMayLeave(tr: seq<State>, i: nat, w: Tid) returns (ext: seq<State>)
    requires Run(tr) && i < |tr| && DrainedFor(tr[i]) && w < |tr[i].pc| && tr[i].pc[w].Work?
    ensures w < |tr[i].led.own| && Leaves(tr[i], ext, w, tr[i].led.own[w] + 1)
  {
    RunMore(tr, i);
    ext := WorkLeaves(tr[i], w);
  }
}
