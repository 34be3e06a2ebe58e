/** The fast semaphore: an atomic counter and an active flag in front of a kernel
    semaphore (fast_semaphore.cpp), for any number of threads that post, wait,
    try to wait and deactivate at will. Every step is one access to an atomic or
    one operation of the kernel semaphore. */
module FastSemaphore {
  import opened Counting
  import opened Runs

  /** Who called try_wait: somebody outside, or wait with `spins` attempts to go. */
  datatype Caller = Outside | InWait(spins: nat)

  datatype PC =
    | Idle
    | SpinTest(spins: nat)                  // wait: 0 < spin_count--
    | TryLoad(who: Caller)                   // try_wait: load sem_count_
    | TryActive(who: Caller, seen: int)      // try_wait: load sem_active_
    | TryCas(who: Caller, seen: int)         // try_wait: compare-exchange seen -> seen - 1
    | Answer(ok: bool)                      // try_wait returns to a caller outside
    | Subtract                              // wait: fetch_sub(1)
    | Decide                                // wait: load sem_active_
    | Block                                 // wait: kernel wait
    | Add(count: nat, closing: bool)        // post: fetch_add(count); closing: called by deactivate
    | Kernel(count: nat, closing: bool)     // post: kernel post
    | Close                                 // deactivate: store sem_active_
    | Measure                               // deactivate: load sem_count_

  type Tid = nat

  /** sem_count_, sem_active_ and the kernel semaphore's counter. */
  datatype Shared = Shared(count: int, active: bool, kernel: nat)

  /** The history: tokens posted, decrements of sem_count_, waits that passed at an
      old count of 0, waits that turned away because the semaphore was inactive, and
      whether a deactivate has done its fetch_add. */
  datatype History = History(posted: nat, taken: nat, lucky: nat, refused: nat, closed: bool)

  datatype State = State(initial: nat, g: Shared, pc: seq<PC>, h: History)

  ghost predicate Init(s: State) {
    && s.g == Shared(s.initial, true, s.initial)
    && s.h == History(0, 0, 0, 0, false)
    && forall t :: 0 <= t < |s.pc| ==> s.pc[t] == Idle
  }

  function Min(a: int, b: int): int { if a < b then a else b }

  function Abs(a: int): nat { if a < 0 then -a else a }

  /** Where try_wait goes when it returns ok. */
  function Back(who: Caller, ok: bool): PC {
    match who
    case Outside => Answer(ok)
    case InWait(spins) => if ok then Idle else SpinTest(spins)
  }

  /** A thread starts or ends a call. */
  ghost predicate CallStep(g: Shared, p: PC, g': Shared, p': PC) {
    && g' == g
    && match p
       case Idle => p'.SpinTest? || p' == TryLoad(Outside) || (p'.Add? && !p'.closing) || p' == Close
       case Answer(ok) => p' == Idle
       case _ => false
  }

  ghost predicate TryStep(g: Shared, p: PC, g': Shared, p': PC) {
    match p
    case TryLoad(who) => g' == g && p' == TryActive(who, g.count)
    case TryActive(who, seen) =>
      && g' == g
      && p' == if !g.active then Back(who, false) else if seen > 0 then TryCas(who, seen) else Back(who, false)
    case TryCas(who, seen) =>
      if g.count == seen then g' == g.(count := seen - 1) && p' == Back(who, true)
      else g' == g && p' == TryLoad(who)
    case _ => false
  }

  ghost predicate WaitStep(g: Shared, p: PC, g': Shared, p': PC) {
    match p
    case SpinTest(spins) => g' == g && p' == if spins > 0 then TryLoad(InWait(spins - 1)) else Subtract
    case Subtract => g' == g.(count := g.count - 1) && p' == if 0 <= g.count then Idle else Decide
    case Decide => g' == g && p' == if g.active then Block else Idle
    case Block => g.kernel > 0 && g' == g.(kernel := g.kernel - 1) && p' == Idle
    case _ => false
  }

  ghost predicate PostStep(g: Shared, p: PC, g': Shared, p': PC) {
    match p
    case Add(count, closing) =>
      && g' == g.(count := g.count + count)
      && p' == if g.count < 0 then Kernel(Min(count, -g.count), closing) else Idle
    case Kernel(count, closing) => g' == g.(kernel := g.kernel + count) && p' == Idle
    case Close => g' == g.(active := false) && p' == Measure
    case Measure => g' == g && p' == Add(Abs(g.count), true)
    case _ => false
  }

  ghost predicate Act(g: Shared, p: PC, g': Shared, p': PC) {
    if p.Idle? || p.Answer? then CallStep(g, p, g', p')
    else if p.TryLoad? || p.TryActive? || p.TryCas? then TryStep(g, p, g', p')
    else if p.SpinTest? || p.Subtract? || p.Decide? || p.Block? then WaitStep(g, p, g', p')
    else PostStep(g, p, g', p')
  }

  /** The compare-exchange of try_wait succeeds. */
  predicate Grabs(g: Shared, p: PC) { p.TryCas? && g.count == p.seen }

  function Record(h: History, g: Shared, p: PC): History {
    if Grabs(g, p) then h.(taken := h.taken + 1)
    else if p.Subtract? then h.(taken := h.taken + 1, lucky := h.lucky + if g.count == 0 then 1 else 0)
    else if p.Decide? && !g.active then h.(refused := h.refused + 1)
    else if p.Add? then h.(posted := h.posted + p.count, closed := h.closed || p.closing)
    else h
  }

  ghost predicate Step(s: State, t: Tid, s': State)
    requires t < |s.pc|
  {
    && s'.initial == s.initial
    && |s'.pc| == |s.pc|
    && s'.pc == s.pc[t := s'.pc[t]]
    && Act(s.g, s.pc[t], s'.g, s'.pc[t])
    && s'.h == Record(s.h, s.g, s.pc[t])
  }

  ghost predicate Next(s: State, s': State) {
    exists t: Tid :: t < |s.pc| && Step(s, t, s')
  }

  // The invariant -------------------------------------------------------------

  predicate Blocked(p: PC) { p.Block? }

  predicate Deciding(p: PC) { p.Decide? }

  /** Kernel tokens that a post has promised and not delivered yet. */
  function Promised(p: PC): nat { if p.Kernel? then p.count else 0 }

  function Deficit(count: int): nat { if count < 0 then -count else 0 }

  /** Kernel tokens available or about to be posted. */
  ghost function Tokens(s: State): nat { s.g.kernel + Sum(s.pc, Promised) }

  /** Every kernel token, promise and unit of deficit is accounted for. */
  ghost predicate Accounts(s: State) {
    && s.g.count == s.initial + s.h.posted - s.h.taken
    && Tokens(s) + Deficit(s.g.count)
       == Count(s.pc, Blocked) + Count(s.pc, Deciding) + s.initial + s.h.lucky + s.h.refused
  }

  /** What a thread at p may rely on once the semaphore is being closed. */
  ghost predicate Local(s: State, p: PC) {
    && (p.Measure? ==> !s.g.active)
    && (p.Add? && p.closing ==> !s.g.active && Count(s.pc, Blocked) <= Tokens(s) + p.count)
    && (p.TryCas? ==> p.seen > 0)
  }

  ghost predicate Inv(s: State) {
    && Accounts(s)
    && (forall t :: 0 <= t < |s.pc| ==> Local(s, s.pc[t]))
    && (s.h.closed ==> !s.g.active && Count(s.pc, Blocked) <= Tokens(s))
  }

  lemma InitInv(s: State)
    requires Init(s)
    ensures Inv(s)
  {
    CountZero(s.pc, Blocked);
    CountZero(s.pc, Deciding);
    SumZero(s.pc, Promised);
  }

  /** How far the kernel tokens are ahead of the blocked threads grows by this much. */
  function Gain(g: Shared, p: PC): int {
    if p.Add? then Min(p.count, Deficit(g.count)) else if p.Decide? && g.active then -1 else 0
  }

  /** The bookkeeping of one access. */
  ghost predicate Balanced(g: Shared, p: PC, g': Shared, p': PC) {
    && g'.kernel - g.kernel + Promised(p') - Promised(p) == B(p'.Block?) - B(p.Block?) + Gain(g, p)
    && B(p'.Decide?) - B(p.Decide?) == B(p.Subtract? && g.count < 0) - B(p.Decide?)
    && g'.count - g.count == (if p.Add? then p.count else 0) - B(p.Subtract? || Grabs(g, p))
    && (g'.active ==> g.active) && (g.active && !g'.active ==> p.Close?)
  }

  lemma ActBalanced(g: Shared, p: PC, g': Shared, p': PC)
    requires Act(g, p, g', p')
    ensures Balanced(g, p, g', p')
  {
  }

  ghost predicate Moved(s: State, t: Tid, s': State) {
    && s'.initial == s.initial
    && t < |s.pc| == |s'.pc| && s'.pc == s.pc[t := s'.pc[t]]
    && s'.h == Record(s.h, s.g, s.pc[t])
  }

  lemma StepTokens(s: State, t: Tid, s': State)
    requires Moved(s, t, s') && Balanced(s.g, s.pc[t], s'.g, s'.pc[t])
    ensures Tokens(s') - Count(s'.pc, Blocked) == Tokens(s) - Count(s.pc, Blocked) + Gain(s.g, s.pc[t])
    ensures Count(s'.pc, Deciding) - Count(s.pc, Deciding) == B(s.pc[t].Subtract? && s.g.count < 0) - B(s.pc[t].Decide?)
  {
    CountUpdate(s.pc, t, s'.pc[t], Blocked);
    CountUpdate(s.pc, t, s'.pc[t], Deciding);
    SumUpdate(s.pc, t, s'.pc[t], Promised);
  }

  lemma StepAccounts(s: State, t: Tid, s': State)
    requires Accounts(s) && Moved(s, t, s') && Balanced(s.g, s.pc[t], s'.g, s'.pc[t]) && Local(s, s.pc[t])
    ensures Accounts(s')
  {
    StepTokens(s, t, s');
  }

  /** Once the semaphore is inactive the tokens never fall behind the blocked threads any further. */
  lemma StepInactive(s: State, t: Tid, s': State)
    requires Moved(s, t, s') && Balanced(s.g, s.pc[t], s'.g, s'.pc[t]) && !s.g.active
    ensures !s'.g.active
    ensures Tokens(s') - Count(s'.pc, Blocked) >= Tokens(s) - Count(s.pc, Blocked)
  {
    StepTokens(s, t, s');
  }

  lemma StepSelf(s: State, t: Tid, s': State)
    requires Accounts(s) && Moved(s, t, s') && Act(s.g, s.pc[t], s'.g, s'.pc[t]) && Local(s, s.pc[t])
    ensures Local(s', s'.pc[t])
  {
    ActBalanced(s.g, s.pc[t], s'.g, s'.pc[t]);
    if s.pc[t].Measure? {
      StepInactive(s, t, s');
    }
  }

  /** The fetch_add of deactivate leaves enough tokens, whatever raced with it. */
  lemma StepClosed(s: State, t: Tid, s': State)
    requires Accounts(s) && Moved(s, t, s') && Balanced(s.g, s.pc[t], s'.g, s'.pc[t]) && Local(s, s.pc[t])
    requires s.h.closed ==> !s.g.active && Count(s.pc, Blocked) <= Tokens(s)
    ensures s'.h.closed ==> !s'.g.active && Count(s'.pc, Blocked) <= Tokens(s')
  {
    if s'.h.closed {
      StepInactive(s, t, s');
      StepTokens(s, t, s');
    }
  }

  lemma NextInv(s: State, s': State)
    requires Inv(s) && Next(s, s')
    ensures Inv(s')
  {
    var t: Tid :| t < |s.pc| && Step(s, t, s');
    ActBalanced(s.g, s.pc[t], s'.g, s'.pc[t]);
    StepAccounts(s, t, s');
    StepSelf(s, t, s');
    StepClosed(s, t, s');
    forall u | 0 <= u < |s'.pc| && u != t ensures Local(s', s'.pc[u]) {
      if !s.g.active { StepInactive(s, t, s'); }
    }
  }

  ghost predicate Run(tr: seq<State>) { IsRun(Init, Next, tr) }

  lemma RunInv(tr: seq<State>, i: nat)
    requires Run(tr) && i < |tr|
    ensures Inv(tr[i])
  {
    forall s | Init(s) ensures Inv(s) { InitInv(s); }
    forall s, s' | Inv(s) && Next(s, s') ensures Inv(s') { NextInv(s, s'); }
    Always(Init, Next, Inv, tr, i);
  }

  // What every run guarantees ---------------------------------------------------

  /** sem_count_ is the initial count plus the posts minus the decrements, and the threads
      committed to the kernel semaphore are covered by kernel tokens, available or
      promised, and the deficit. */
  lemma SemaphoreAccounts(tr: seq<State>, i: nat)
    requires Run(tr) && i < |tr|
    ensures tr[i].g.count == tr[i].initial + tr[i].h.posted - tr[i].h.taken
    ensures Count(tr[i].pc, Blocked) + Count(tr[i].pc, Deciding) <= Tokens(tr[i]) + Deficit(tr[i].g.count)
  {
    RunInv(tr, i);
  }

  /** No lost wake-up: if threads stay blocked while no kernel token is available or
      promised, then more waits have begun than tokens were ever posted, by at least
      the number of blocked threads. */
  lemma NoLostWakeup(tr: seq<State>, i: nat)
    requires Run(tr) && i < |tr| && Tokens(tr[i]) == 0
    ensures Count(tr[i].pc, Blocked) > 0 ==>
              tr[i].initial + tr[i].h.posted + Count(tr[i].pc, Blocked) <= tr[i].h.taken
  {
    RunInv(tr, i);
  }

  /** Inside a call of try_wait from outside. */
  predicate Trying(p: PC) { (p.TryLoad? || p.TryActive? || p.TryCas?) && p.who == Outside }

  /** Thread t takes one from sem_count_. */
  ghost predicate Decrements(s: State, t: Tid, s': State) {
    t < |s.pc| && Step(s, t, s') && s'.g.count < s.g.count
  }

  /** How often it does so between i and j. */
  ghost function Taken(tr: seq<State>, t: Tid, i: nat, j: nat): nat
    requires i <= j < |tr|
  {
    Occurs((s, s') => Decrements(s, t, s'), tr, i, j)
  }

  /** What an access of try_wait from outside does. */
  lemma TryAccess(g: Shared, p: PC, g': Shared, p': PC)
    requires Act(g, p, g', p') && Trying(p)
    ensures p' == Answer(true) ==> p.TryCas? && g' == g.(count := g.count - 1) && g.count == p.seen
    ensures p' != Answer(true) ==> g' == g && (Trying(p') || p' == Answer(false))
    ensures p' == Answer(false) ==> !g.active || (p.TryActive? && p.seen <= 0)
    ensures p'.TryActive? ==> p'.seen == g.count
    ensures p' != p
  {
  }

  /** At some moment of the call the semaphore was inactive, or its count was not positive. */
  ghost predicate Excused(tr: seq<State>, i: nat, j: nat) {
    exists k :: i <= k < j && k < |tr| && (!tr[k].g.active || tr[k].g.count <= 0)
  }

  /** What has been seen: while thread t is in its call it has taken nothing, and the count that
      it remembers was the count at some moment of the call. */
  ghost predicate Midway(tr: seq<State>, i: nat, j: nat, t: Tid)
    requires i <= j < |tr| && t < |tr[j].pc|
  {
    var p := tr[j].pc[t];
    && Trying(p) && Taken(tr, t, i, j) == 0
    && (p.TryActive? && p.seen <= 0 ==> Excused(tr, i, j))
  }

  lemma OthersStay(s: State, u: Tid, s': State, t: Tid)
    requires u < |s.pc| && Step(s, u, s') && t < |s.pc|
    ensures |s'.pc| == |s.pc| && (u != t ==> s'.pc[t] == s.pc[t])
  {
  }

  /** The call, one step further. */
  lemma TryStepFurther(tr: seq<State>, i: nat, j: nat, t: Tid)
    requires i <= j && j + 1 < |tr| && t < |tr[j].pc| && Next(tr[j], tr[j + 1]) && Midway(tr, i, j, t)
    requires Local(tr[j], tr[j].pc[t])
    ensures t < |tr[j + 1].pc|
    ensures var p' := tr[j + 1].pc[t];
            if Trying(p') then Midway(tr, i, j + 1, t)
            else p'.Answer? && Taken(tr, t, i, j + 1) == (if p'.ok then 1 else 0)
                 && (p'.ok ==> tr[j].g.count > 0) && (!p'.ok ==> Excused(tr, i, j + 1))
  {
    var s, s' := tr[j], tr[j + 1];
    var u: Tid :| u < |s.pc| && Step(s, u, s');
    OthersStay(s, u, s', t);
    if u == t {
      TryAccess(s.g, s.pc[t], s'.g, s'.pc[t]);
    } else if Step(s, t, s') {
      TryAccess(s.g, s.pc[t], s'.g, s'.pc[t]);
    }
  }

  /** A step of the machine from k, in which thread t may rely on its local facts. */
  ghost predicate Sound(tr: seq<State>, k: nat, t: Tid) {
    k + 1 < |tr| && t < |tr[k].pc| && Next(tr[k], tr[k + 1]) && Local(tr[k], tr[k].pc[t])
  }

  lemma RunSound(tr: seq<State>, k: nat, t: Tid)
    requires Run(tr) && k + 1 < |tr| && t < |tr[k].pc|
    ensures Sound(tr, k, t)
  {
    RunInv(tr, k);
  }

  /** Thread t stands inside its call all the way from i up to, not including, j. */
  ghost predicate Calling(tr: seq<State>, i: nat, j: nat, t: Tid) {
    j <= |tr| && forall k :: i <= k < j ==> t < |tr[k].pc| && Trying(tr[k].pc[t])
  }

  lemma CallingLess(tr: seq<State>, i: nat, j: nat, t: Tid)
    requires Calling(tr, i, j + 1, t) && i <= j
    ensures Calling(tr, i, j, t) && t < |tr[j].pc| && Trying(tr[j].pc[t])
  {
  }

  lemma {:induction false} TryMidway(tr: seq<State>, i: nat, j: nat, t: Tid)
    requires i <= j < |tr| && t < |tr[i].pc| && tr[i].pc[t] == TryLoad(Outside)
    requires Calling(tr, i, j + 1, t) && forall k: nat :: i <= k < j ==> Sound(tr, k, t)
    ensures t < |tr[j].pc| && Midway(tr, i, j, t)
  {
    CallingLess(tr, i, j, t);
    if i < j {
      TryMidway(tr, i, j - 1, t);
      assert Sound(tr, j - 1, t);
      TryStepFurther(tr, i, j - 1, t);
    }
  }

  /** How a call that begins at i answers at j. */
  ghost predicate Answers(tr: seq<State>, i: nat, j: nat, t: Tid, ok: bool)
    requires i < j < |tr|
  {
    && Taken(tr, t, i, j) == (if ok then 1 else 0)
    && (ok ==> tr[j - 1].g.count > 0) && (!ok ==> Excused(tr, i, j))
  }

  lemma CallAnswers(tr: seq<State>, i: nat, j: nat, t: Tid)
    requires i < j < |tr| && t < |tr[i].pc| && tr[i].pc[t] == TryLoad(Outside)
    requires Calling(tr, i, j, t) && t < |tr[j].pc| && tr[j].pc[t].Answer?
    requires forall k: nat :: i <= k < j ==> Sound(tr, k, t)
    ensures Answers(tr, i, j, t, tr[j].pc[t].ok)
  {
    TryMidway(tr, i, j - 1, t);
    assert Sound(tr, j - 1, t);
    TryStepFurther(tr, i, j - 1, t);
  }

  /** A whole call of try_wait, from its first load to its answer: it takes from the counter
      exactly once, a positive count, if it answers true, and never otherwise; it answers false
      only if at some moment of the call the semaphore was inactive or had nothing to give. */
  lemma TryWaitExact(tr: seq<State>, i: nat, j: nat, t: Tid)
    requires Run(tr) && i < j < |tr| && t < |tr[i].pc| && tr[i].pc[t] == TryLoad(Outside)
    requires Calling(tr, i, j, t) && t < |tr[j].pc| && tr[j].pc[t].Answer?
    ensures Answers(tr, i, j, t, tr[j].pc[t].ok)
  {
    forall k: nat | i <= k < j ensures Sound(tr, k, t) {
      RunSound(tr, k, t);
    }
    CallAnswers(tr, i, j, t);
  }

  /** Deactivation frees everyone: once a deactivate has done its fetch_add, the kernel
      tokens available or promised cover every blocked thread, whatever posts and waits
      raced with it; while somebody is blocked, somebody can move: a blocked thread, or a
      post that is about to deliver. */
  lemma DeactivateFreesAll(tr: seq<State>, i: nat)
    requires Run(tr) && i < |tr| && tr[i].h.closed
    ensures !tr[i].g.active && Count(tr[i].pc, Blocked) <= Tokens(tr[i])
    ensures Count(tr[i].pc, Blocked) > 0 ==>
              tr[i].g.kernel > 0 || exists t :: 0 <= t < |tr[i].pc| && tr[i].pc[t].Kernel? && tr[i].pc[t].count > 0
  {
    RunInv(tr, i);
    var s := tr[i];
    if Count(s.pc, Blocked) > 0 && s.g.kernel == 0 {
      var t := SumWitness(s.pc, Promised);
    }
  }

  /** After the store of deactivate no thread commits to the kernel semaphore any more. */
  lemma InactiveNeverBlocks(tr: seq<State>, i: nat, j: nat, t: Tid)
    requires Run(tr) && i <= j < |tr| && !tr[i].g.active && t < |tr[i].pc| && !tr[i].pc[t].Block?
    ensures !tr[j].g.active && t < |tr[j].pc| && !tr[j].pc[t].Block?
  {
    forall s | Init(s) ensures Inv(s) { InitInv(s); }
    forall s, s' | Inv(s) && Next(s, s') ensures Inv(s') { NextInv(s, s'); }
    var open := (s: State) => !s.g.active && t < |s.pc| && !s.pc[t].Block?;
    forall s, s' | Inv(s) && Next(s, s') && open(s) ensures open(s') { InactiveStep(s, s', t); }
    Forever(Init, Next, Inv, open, tr, i, j);
  }

  lemma InactiveStep(s: State, s': State, t: Tid)
    requires Next(s, s') && !s.g.active && t < |s.pc| && !s.pc[t].Block?
    ensures !s'.g.active && t < |s'.pc| && !s'.pc[t].Block?
  {
    var u: Tid :| u < |s.pc| && Step(s, u, s');
    ActBalanced(s.g, s.pc[u], s'.g, s'.pc[u]);
  }

  /** Waits and try_waits that have taken their turn while the semaphore was active. */
  ghost function Completed(s: State): int {
    s.h.taken - Count(s.pc, Deciding) - Count(s.pc, Blocked) - s.h.refused
  }

  /** How many waits get through: those paid for by posts and by the initial count, once
      more the initial count, because the kernel semaphore starts there too, and one for
      every wait that found the counter at 0 and passed; less what is still to be had. */
  lemma AdmissionExact(tr: seq<State>, i: nat)
    requires Run(tr) && i < |tr|
    ensures Completed(tr[i]) + Tokens(tr[i]) + (if tr[i].g.count > 0 then tr[i].g.count else 0)
         == tr[i].h.posted + 2 * tr[i].initial + tr[i].h.lucky
  {
    RunInv(tr, i);
  }

  function Pos(a: int): nat { if a > 0 then a else 0 }

  /** Completed waits stay within initial count and posts as long as what is still to be had is at
      least the initial count and the number of waits that passed at 0, and no longer. */
  lemma AdmissionBoundIff(s: State)
    requires Inv(s)
    ensures Completed(s) <= s.initial + s.h.posted <==> s.initial + s.h.lucky <= Tokens(s) + Pos(s.g.count)
  {
  }

  /** What waits and try_waits have been given, or can still have, beyond what was paid in. */
  ghost function Unpaid(s: State): int {
    Completed(s) + Tokens(s) + Pos(s.g.count) - s.h.posted - 2 * s.initial
  }

  /** The guard at fetch_sub: a wait passes unpaid exactly when it finds the counter at 0, and
      nothing else anybody does gives anything away or takes anything back. */
  lemma UnpaidExactly(s: State, t: Tid, s': State)
    requires Inv(s) && t < |s.pc| && Step(s, t, s')
    ensures Unpaid(s') == Unpaid(s) + if s.pc[t].Subtract? && s.g.count == 0 then 1 else 0
  {
    assert Next(s, s');
    NextInv(s, s');
  }

  // Breaking the bound --------------------------------------------------------------------

  /** The active semaphore with a thread t outside. */
  predicate Open(s: State, t: Tid) { s.g.active && t < |s.pc| && s.pc[t] == Idle }

  /** Thread t has gone to p, with the shared variables and the history as given. */
  ghost function At(s: State, t: Tid, g: Shared, p: PC, h: History): State
    requires t < |s.pc|
  {
    s.(g := g, pc := s.pc[t := p], h := h)
  }

  lemma Goes(s: State, t: Tid, g: Shared, p: PC, h: History, g': Shared, p': PC)
    requires t < |s.pc| && Leads(Next, s, At(s, t, g, p, h)) && Act(g, p, g', p')
    ensures Leads(Next, s, At(s, t, g', p', Record(h, g, p)))
  {
    var b, c := At(s, t, g, p, h), At(s, t, g', p', Record(h, g, p));
    assert c.pc == b.pc[t := p'];
    assert Step(b, t, c) && Next(b, c);
    LeadsOn(Next, s, b, c);
  }

  lemma Stands(s: State, t: Tid)
    requires Open(s, t)
    ensures Leads(Next, s, At(s, t, s.g, Idle, s.h)) && forall g, h :: At(s, t, g, Idle, h) == s.(g := g, h := h)
  {
    assert s.pc[t := Idle] == s.pc;
    LeadsNowhere(Next, s);
  }

  /** A wait that passes at once. */
  lemma WaitPasses(s: State, t: Tid) returns (e: State)
    requires Open(s, t) && s.g.count >= 0
    ensures Leads(Next, s, e) && e.g == s.g.(count := s.g.count - 1)
    ensures e == s.(g := e.g, h := s.h.(taken := s.h.taken + 1, lucky := s.h.lucky + B(s.g.count == 0)))
  {
    Stands(s, t);
    Goes(s, t, s.g, Idle, s.h, s.g, SpinTest(0));
    Goes(s, t, s.g, SpinTest(0), s.h, s.g, Subtract);
    var g' := s.g.(count := s.g.count - 1);
    Goes(s, t, s.g, Subtract, s.h, g', Idle);
    e := s.(g := g', h := Record(s.h, s.g, Subtract));
  }

  /** A wait that takes a kernel token. */
  lemma WaitTakes(s: State, t: Tid) returns (e: State)
    requires Open(s, t) && s.g.count < 0 && s.g.kernel > 0
    ensures Leads(Next, s, e) && e.g == s.g.(count := s.g.count - 1, kernel := s.g.kernel - 1)
    ensures e == s.(g := e.g, h := s.h.(taken := s.h.taken + 1))
  {
    Stands(s, t);
    Goes(s, t, s.g, Idle, s.h, s.g, SpinTest(0));
    Goes(s, t, s.g, SpinTest(0), s.h, s.g, Subtract);
    var g', h' := s.g.(count := s.g.count - 1), Record(s.h, s.g, Subtract);
    Goes(s, t, s.g, Subtract, s.h, g', Decide);
    Goes(s, t, g', Decide, h', g', Block);
    var g'' := g'.(kernel := g'.kernel - 1);
    Goes(s, t, g', Block, h', g'', Idle);
    e := s.(g := g'', h := h');
  }

  /** A post that makes up for all waits beyond the counter. */
  lemma PostsBack(s: State, t: Tid) returns (e: State)
    requires Open(s, t) && s.g.count < 0
    ensures Leads(Next, s, e) && e.g == s.g.(count := 0, kernel := s.g.kernel - s.g.count)
    ensures e == s.(g := e.g, h := s.h.(posted := s.h.posted - s.g.count))
  {
    var n := -s.g.count;
    Stands(s, t);
    Goes(s, t, s.g, Idle, s.h, s.g, Add(n, false));
    var g', h' := s.g.(count := 0), Record(s.h, s.g, Add(n, false));
    Goes(s, t, s.g, Add(n, false), s.h, g', Kernel(n, false));
    var g'' := g'.(kernel := g'.kernel + n);
    Goes(s, t, g', Kernel(n, false), h', g'', Idle);
    e := s.(g := g'', h := h');
  }

  /** What thread t, calling again and again, leaves as it is. */
  ghost predicate Alike(s: State, e: State) {
    e.g.active == s.g.active && e.pc == s.pc && e.initial == s.initial && e.h.lucky >= s.h.lucky
  }

  /** It takes all kernel tokens there are. */
  lemma {:induction false} Exhausts(s: State, t: Tid) returns (e: State)
    requires Open(s, t) && s.g.count < 0
    ensures Leads(Next, s, e) && Alike(s, e) && e.g.count < 0 && e.g.kernel == 0
    decreases s.g.kernel
  {
    LeadsNowhere(Next, s);
    e := s;
    if s.g.kernel > 0 {
      var a := WaitTakes(s, t);
      e := Exhausts(a, t);
      LeadsFurther(Next, s, a, e);
    }
  }

  /** It brings the counter to 0. */
  lemma {:induction false} Levels(s: State, t: Tid) returns (e: State)
    requires Open(s, t)
    ensures Leads(Next, s, e) && Alike(s, e) && e.g.count == 0
    decreases s.g.count
  {
    LeadsNowhere(Next, s);
    e := s;
    if s.g.count < 0 {
      e := PostsBack(s, t);
    } else if s.g.count > 0 {
      var a := WaitPasses(s, t);
      e := Levels(a, t);
      LeadsFurther(Next, s, a, e);
    }
  }

  /** One more wait finds the counter at 0, and no kernel token is left afterwards. */
  lemma Lap(s: State, t: Tid) returns (e: State)
    requires Open(s, t)
    ensures Leads(Next, s, e) && Alike(s, e) && e.g.count < 0 && e.g.kernel == 0 && e.h.lucky > s.h.lucky
  {
    var a := Levels(s, t);
    var b := WaitPasses(a, t);
    e := Exhausts(b, t);
    LeadsFurther(Next, s, a, b);
    LeadsFurther(Next, s, b, e);
  }

  lemma {:induction false} Laps(s: State, t: Tid, n: nat) returns (e: State)
    requires Open(s, t)
    ensures Leads(Next, s, e) && Alike(s, e) && e.g.count < 0 && e.g.kernel == 0 && e.h.lucky > n
    decreases n - s.h.lucky
  {
    e := Lap(s, t);
    if e.h.lucky <= n {
      var a := e;
      e := Laps(a, t, n);
      LeadsFurther(Next, s, a, e);
    }
  }

  lemma LeadsInv(s: State, e: State)
    requires Inv(s) && Leads(Next, s, e)
    ensures Inv(e)
  {
    forall a, b | Inv(a) && Next(a, b) ensures Inv(b) { NextInv(a, b); }
    LeadsKeeps(Next, Inv, s, e);
  }

  /** While the semaphore is active the bound on completed waits is never safe: from every
      reachable state one thread outside, by waiting and posting, breaks it. */
  lemma BoundBreaks(tr: seq<State>, i: nat, t: Tid) returns (e: State)
    requires Run(tr) && i < |tr| && Open(tr[i], t)
    ensures Leads(Next, tr[i], e) && Completed(e) > e.initial + e.h.posted
  {
    var s := tr[i];
    RunInv(tr, i);
    e := Laps(s, t, Sum(s.pc, Promised));
    LeadsInv(s, e);
    AdmissionBoundIff(e);
  }

  /** Waits can outnumber the tokens: on a fresh semaphore of count 0 a wait passes at once. */
  lemma WaitPassesUnpaid() returns (tr: seq<State>)
    ensures Run(tr)
    ensures var s := tr[|tr| - 1]; s.initial == 0 && s.h.posted == 0 && Completed(s) == 1 && s.pc == [Idle]
  {
    var h := History(0, 0, 0, 0, false);
    var s0 := State(0, Shared(0, true, 0), [Idle], h);
    var s1 := s0.(pc := [SpinTest(0)]);
    var s2 := s0.(pc := [Subtract]);
    var s3 := State(0, Shared(-1, true, 0), [Idle], h.(taken := 1, lucky := 1));
    tr := [s0, s1, s2, s3];
    assert Step(s0, 0, s1) && Step(s1, 0, s2) && Step(s2, 0, s3);
    assert Next(s0, s1) && Next(s1, s2) && Next(s2, s3);
    CountZero(s3.pc, Deciding);
    CountZero(s3.pc, Blocked);
  }
}
