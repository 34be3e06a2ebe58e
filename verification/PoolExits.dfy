/** How long a worker can take to leave, whatever the other threads do: how many steps of its
    own it makes in any run once a shutdown has set its flag. */
module PoolExits {
  import opened Counting
  import opened Locks
  import opened Pool
  import opened PoolShutdown
  import opened Runs
  import FS = FastSemaphore

  // What is left for one worker ---------------------------------------------------------------

  /** At most how many steps a worker at p is from its exit, or, while there is something in the
      global queue, from the end of its next task; sp is where it stands in the semaphore, whose
      waits make at most k attempts before they block. */
  function Remaining(k: nat, m: Mode, p: PC, sp: FS.PC): nat {
    match p
    case Work => 7
    case Own => 4 * k + 11
    case Global => 4 * k + 10
    case Steal => if m.Queued? then 8 * k + 20 else 4 * k + 9
    case Now => if m.Abandoned? then 1 else 4 * k + 12
    case Empty => if m.Queued? then 4 * k + 13 else 2
    case Check => if m.Queued? then 4 * k + 14 else 3
    case Wait => (if m.Queued? then 4 * k + 15 else 4) + SemRank(sp)
    case Requeue => (if m.Queued? then 4 * k + 15 else 4) + SemRank(sp)
    case _ => 0
  }

  /** A task that has been run while there is something in the global queue costs another lap. */
  function LapAfter(k: nat, m: Mode, p: PC): nat { if m.Queued? && p.Work? then Lap(k) else 0 }

  function Lap(k: nat): nat { 4 * k + 11 }

  ghost function StepsLeft(k: nat, s: State, w: Tid): nat
    requires w < |s.pc| == |s.sem.pc|
  {
    Remaining(k, ModeOf(s.g), s.pc[w], s.sem.pc[w])
  }

  /** No wait under way has more than k attempts before it. */
  predicate Within(k: nat, sp: FS.PC) {
    && (sp.SpinTest? ==> sp.spins <= k)
    && ((sp.TryLoad? || sp.TryActive? || sp.TryCas?) && sp.who.InWait? ==> sp.who.spins < k)
  }

  lemma RemainingBound(k: nat, m: Mode, p: PC, sp: FS.PC)
    requires Worker(p) && Fits(p, sp) && Within(k, sp)
    ensures Remaining(k, m, p, sp) <= if m.Queued? then 8 * k + 20 else 4 * k + 12
  {
  }

  // One step ------------------------------------------------------------------------------------

  /** An access of a worker inside the inactive semaphore. */
  lemma SemFalls(p: PC, g: FS.Shared, sp: FS.PC, g': FS.Shared, sp': FS.PC)
    requires !g.active && Worker(p) && InSem(p) && Fits(p, sp) && sp != FS.Idle && FS.Act(g, sp, g', sp')
    ensures SemRank(sp') < SemRank(sp)
  {
  }

  /** A step of the loop. */
  lemma LoopFalls(k: nat, g: Shared, p: PC, latched: bool, t: Tid, g': Shared, p': PC, sp': FS.PC)
    requires WorkerStep(g, p, latched, t, g', p', sp') && Flagged(g) && (latched ==> g.shtdwn)
    requires sp'.SpinTest? ==> sp'.spins <= k
    ensures Remaining(k, ModeOf(g'), p', sp') < Remaining(k, ModeOf(g), p, FS.Idle) + LapAfter(k, ModeOf(g), p)
    ensures p' != p
  {
  }

  /** The step of the worker itself. */
  lemma OwnFalls(k: nat, s: State, w: Tid, s': State)
    requires Inv(s) && Flagged(s.g) && w < |s.pc| && Worker(s.pc[w]) && Step(s, w, s')
    requires s'.sem.pc[w].SpinTest? ==> s'.sem.pc[w].spins <= k
    ensures StepsLeft(k, s', w) < StepsLeft(k, s, w) + LapAfter(k, ModeOf(s.g), s.pc[w])
    ensures s'.pc[w] != s.pc[w] || s'.sem.pc[w] != s.sem.pc[w]
  {
    var p, sp, p', sp' := s.pc[w], s.sem.pc[w], s'.pc[w], s'.sem.pc[w];
    FlagCloses(s);
    assert Fits(p, sp);
    if InSem(p) {
      if sp != FS.Idle { SemFalls(p, s.sem.g, sp, s'.sem.g, sp'); }
    } else {
      LoopFalls(k, s.g, p, s.latch[w], w, s'.g, p', sp');
    }
  }

  /** Anybody else can only shorten its way. */
  lemma ModeFalls(k: nat, g: Shared, g': Shared, p: PC, sp: FS.PC)
    requires Flagged(g) && QueueMoves(g.q, g'.q) && !g.q.active
    requires (g.shtdwn ==> g'.shtdwn) && (g.shtdwnNow ==> g'.shtdwnNow)
    ensures Remaining(k, ModeOf(g'), p, sp) <= Remaining(k, ModeOf(g), p, sp)
    ensures !ModeOf(g).Queued? ==> !ModeOf(g').Queued?
  {
  }

  // Whole runs ----------------------------------------------------------------------------------

  /** No wait under way in sem makes more than k attempts. */
  ghost predicate AllWithin(k: nat, pc: seq<FS.PC>) {
    forall t :: 0 <= t < |pc| ==> Within(k, pc[t])
  }

  /** A step after which no wait has more than k attempts to make. */
  ghost predicate Spins(k: nat, s: State, s': State) {
    Next(s, s') && forall t :: 0 <= t < |s'.sem.pc| && s'.sem.pc[t].SpinTest? ==> s'.sem.pc[t].spins <= k
  }

  /** A run of a pool whose semaphore has spin count k. */
  ghost predicate RunWith(k: nat, tr: seq<State>) { IsRun(Init, (s, s') => Spins(k, s, s'), tr) }

  lemma SemMoves(s: State, s': State)
    requires Inv(s) && Next(s, s')
    ensures s'.sem == s.sem || FS.Next(s.sem, s'.sem)
  {
    var u: Tid :| u < |s.pc| && Step(s, u, s');
    if s'.sem != s.sem { assert FS.Step(s.sem, u, s'.sem); }
  }

  lemma ActWithin(k: nat, g: FS.Shared, p: FS.PC, g': FS.Shared, p': FS.PC)
    requires FS.Act(g, p, g', p') && Within(k, p) && (p'.SpinTest? ==> p'.spins <= k)
    ensures Within(k, p')
  {
  }

  lemma WithinKept(k: nat, sem: FS.State, sem': FS.State)
    requires sem' == sem || FS.Next(sem, sem')
    requires AllWithin(k, sem.pc)
    requires forall t :: 0 <= t < |sem'.pc| && sem'.pc[t].SpinTest? ==> sem'.pc[t].spins <= k
    ensures AllWithin(k, sem'.pc)
  {
    if sem' != sem {
      var u: FS.Tid :| u < |sem.pc| && FS.Step(sem, u, sem');
      ActWithin(k, sem.g, sem.pc[u], sem'.g, sem'.pc[u]);
    }
  }

  ghost predicate InvWith(k: nat, s: State) { Inv(s) && AllWithin(k, s.sem.pc) }

  lemma SpinsInv(k: nat, s: State, s': State)
    requires InvWith(k, s) && Spins(k, s, s')
    ensures InvWith(k, s')
  {
    NextInv(s, s');
    SemMoves(s, s');
    WithinKept(k, s.sem, s'.sem);
  }

  lemma RunInvWith(k: nat, tr: seq<State>, i: nat)
    requires RunWith(k, tr) && i < |tr|
    ensures InvWith(k, tr[i])
  {
    var next, inv := (s: State, s': State) => Spins(k, s, s'), (s: State) => InvWith(k, s);
    forall s | Init(s) ensures inv(s) { InitInv(s); }
    forall s, s' | inv(s) && next(s, s') ensures inv(s') { SpinsInv(k, s, s'); }
    Always(Init, next, inv, tr, i);
  }

  /** Worker w in s, after a flag has been set. */
  ghost predicate Leaving(k: nat, w: Tid, s: State) {
    InvWith(k, s) && w < |s.pc| && Worker(s.pc[w]) && Flagged(s.g)
  }

  /** Worker w moves from s to s'. */
  ghost predicate Moves(w: Tid, s: State, s': State) {
    && w < |s.pc| == |s.sem.pc| && w < |s'.pc| == |s'.sem.pc|
    && (s'.pc[w] != s.pc[w] || s'.sem.pc[w] != s.sem.pc[w])
  }

  /** It comes to the end of a run of a task while there is something in the global queue. */
  ghost predicate RunsOn(w: Tid, s: State, s': State) {
    Moves(w, s, s') && s.pc[w].Work? && ModeOf(s.g).Queued?
  }

  ghost function Left(k: nat, w: Tid, s: State): nat {
    if w < |s.pc| == |s.sem.pc| then StepsLeft(k, s, w) else 0
  }

  /** What its own step does for worker w. */
  lemma OwnStepFalls(k: nat, s: State, w: Tid, s': State)
    requires Leaving(k, w, s) && Step(s, w, s') && Spins(k, s, s')
    ensures Left(k, w, s') + 1 <= Left(k, w, s) + (if RunsOn(w, s, s') then Lap(k) else 0)
  {
    OwnFalls(k, s, w, s');
  }

  /** What the step of another thread does for it. */
  lemma OtherStepFalls(k: nat, s: State, t: Tid, s': State, w: Tid)
    requires Leaving(k, w, s) && t < |s.pc| && t != w
    requires |s'.pc| == |s'.sem.pc| == |s.pc| == |s.sem.pc| && s'.pc == s.pc[t := s'.pc[t]] && Effects(s, t, s')
    ensures Left(k, w, s') <= Left(k, w, s) && !Moves(w, s, s')
  {
    FlagCloses(s);
    ModeFalls(k, s.g, s'.g, s.pc[w], s.sem.pc[w]);
  }

  /** What anybody's step leaves as it is. */
  lemma StepStays(k: nat, s: State, t: Tid, s': State, w: Tid)
    requires Leaving(k, w, s) && t < |s.pc| && Step(s, t, s')
    ensures |s'.pc| == |s.pc| == |s.sem.pc| == |s'.sem.pc| && Worker(s'.pc[w]) && Flagged(s'.g) && Effects(s, t, s')
    ensures s'.pc == s.pc[t := s'.pc[t]] && (!ModeOf(s.g).Queued? ==> !ModeOf(s'.g).Queued?)
  {
    StepEffects(s, t, s');
    FlagCloses(s);
    ModeFalls(k, s.g, s'.g, s.pc[w], s.sem.pc[w]);
  }

  lemma OneFurther(k: nat, w: Tid, s: State, s': State)
    requires Leaving(k, w, s) && Spins(k, s, s')
    ensures Leaving(k, w, s') && (!ModeOf(s.g).Queued? ==> !ModeOf(s'.g).Queued?)
    ensures Left(k, w, s') + B(Moves(w, s, s')) <= Left(k, w, s) + if RunsOn(w, s, s') then Lap(k) else 0
  {
    var t: Tid :| t < |s.pc| && Step(s, t, s');
    StepStays(k, s, t, s', w);
    if t == w { OwnStepFalls(k, s, w, s'); } else { OtherStepFalls(k, s, t, s', w); }
    SpinsInv(k, s, s');
  }

  /** How many steps of its own worker w makes between i and j. */
  ghost function Steps(w: Tid, tr: seq<State>, i: nat, j: nat): nat
    requires i <= j < |tr|
  {
    Occurs((s, s') => Moves(w, s, s'), tr, i, j)
  }

  /** How many tasks it comes to the end of a run of, while there is something in the global queue. */
  ghost function QueuedRuns(w: Tid, tr: seq<State>, i: nat, j: nat): nat
    requires i <= j < |tr|
  {
    Occurs((s, s') => RunsOn(w, s, s'), tr, i, j)
  }

  lemma LeftBound(k: nat, w: Tid, s: State)
    requires Leaving(k, w, s)
    ensures Left(k, w, s) <= if ModeOf(s.g).Queued? then 8 * k + 20 else 4 * k + 12
  {
    assert Fits(s.pc[w], s.sem.pc[w]) && Within(k, s.sem.pc[w]);
    RemainingBound(k, ModeOf(s.g), s.pc[w], s.sem.pc[w]);
  }

  lemma StepsCount(k: nat, c: nat, tr: seq<State>, i: nat, j: nat, w: Tid)
    requires RunWith(k, tr) && i <= j < |tr| && Leaving(k, w, tr[i]) && c == Lap(k)
    ensures Steps(w, tr, i, j) <= Left(k, w, tr[i]) + c * QueuedRuns(w, tr, i, j)
  {
    var next, inv := (s: State, s': State) => Spins(k, s, s'), (s: State) => Leaving(k, w, s);
    var moves, lap := (s: State, s': State) => Moves(w, s, s'), (s: State, s': State) => RunsOn(w, s, s');
    var left := (s: State) => Left(k, w, s);
    forall s, s' | inv(s) && next(s, s')
      ensures inv(s') && left(s') + (if moves(s, s') then 1 else 0) <= left(s) + if lap(s, s') then c else 0 {
      OneFurther(k, w, s, s');
    }
    Amortised(next, inv, moves, lap, left, c, tr, i, j);
  }

  /** After a flag is set, in every run, a worker goes round the loop only as long as it runs tasks:
      the number of its own steps is bounded by the spin count and the number of tasks it has run
      while there was something in the global queue. */
  lemma StepsPerTask(k: nat, tr: seq<State>, i: nat, j: nat, w: Tid)
    requires RunWith(k, tr) && i <= j < |tr| && w < |tr[i].pc| && Worker(tr[i].pc[w]) && Flagged(tr[i].g)
    ensures Steps(w, tr, i, j) <= 8 * k + 20 + Lap(k) * QueuedRuns(w, tr, i, j)
  {
    RunInvWith(k, tr, i);
    LeftBound(k, w, tr[i]);
    StepsCount(k, Lap(k), tr, i, j, w);
  }

  /** The global queue is drained for the workers that are to leave, or abandoned. */
  predicate Over(g: Shared) { Flagged(g) && !ModeOf(g).Queued? }

  lemma OverFalls(k: nat, w: Tid, s: State, s': State)
    requires Leaving(k, w, s) && Over(s.g) && Spins(k, s, s')
    ensures Leaving(k, w, s') && Over(s'.g)
    ensures Left(k, w, s') + B(Moves(w, s, s')) <= Left(k, w, s)
  {
    OneFurther(k, w, s, s');
  }

  /** As soon as shtdwn_ is set and the global queue drained, or shtdwn_now_ is set, every worker
      makes at most 4k + 12 steps of its own in every run, whatever anybody else does. */
  lemma StepsBounded(k: nat, tr: seq<State>, i: nat, j: nat, w: Tid)
    requires RunWith(k, tr) && i <= j < |tr| && w < |tr[i].pc| && Worker(tr[i].pc[w]) && Over(tr[i].g)
    ensures Steps(w, tr, i, j) <= 4 * k + 12
  {
    RunInvWith(k, tr, i);
    LeftBound(k, w, tr[i]);
    OverCount(k, tr, i, j, w);
  }

  lemma OverCount(k: nat, tr: seq<State>, i: nat, j: nat, w: Tid)
    requires RunWith(k, tr) && i <= j < |tr| && Leaving(k, w, tr[i]) && Over(tr[i].g)
    ensures Steps(w, tr, i, j) <= Left(k, w, tr[i])
  {
    var next, inv := (s: State, s': State) => Spins(k, s, s'), (s: State) => Leaving(k, w, s) && Over(s.g);
    var moves, left := (s: State, s': State) => Moves(w, s, s'), (s: State) => Left(k, w, s);
    forall s, s' | inv(s) && next(s, s')
      ensures inv(s') && left(s') + (if moves(s, s') then 1 else 0) <= left(s) {
      OverFalls(k, w, s, s');
    }
    Bounded(next, inv, moves, left, tr, i, j);
  }

  /** And a run that has reached the end of it all, with no step left for a worker or for anybody
      on the way out of the semaphore, has all workers out of their loops. */
  lemma NoStepLeft(tr: seq<State>, i: nat)
    requires Run(tr) && i < |tr| && Flagged(tr[i].g) && forall s' :: !WindUp(tr[i], s')
    ensures AllExited(tr[i].pc)
  {
    RunInv(tr, i);
    if !AllExited(tr[i].pc) {
      var s' := NextCloser(tr[i]);
    }
  }
}
