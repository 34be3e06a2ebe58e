/** The two-lock bounded channel (bounded_channel.hpp), for any number of producers,
    consumers and deactivating threads. Producers work at the tail under tail_mtx_,
    consumers at the head under head_mtx_; only count_ and state_ are shared between the
    two sides. A step is one access to a shared variable or one lock operation; taking
    tail_mtx_ just to read tail_, as empty_ does, is one step. Waiting on a condition gives
    up the lock and falls asleep in one step; a sleeper may also wake for no reason. */
module BoundedChannel {
  import opened Counting
  import opened Locks
  import opened Options
  import opened Runs

  type Value = nat

  datatype Node = Node(va: Option<Value>, next: Option<nat>)

  const BLANK := Node(None, None)

  datatype PC =
    | Out
    // put(x); n is the node it has allocated
    | PutAlloc(x: Value)
    | PutLock(x: Value, n: nat)
    | PutFull(x: Value, n: nat)         // if full_()
    | PutLoopActive(x: Value, n: nat)   // while active_() ...
    | PutLoopFull(x: Value, n: nat)     // ... && full_()
    | PutSleep(x: Value, n: nat)        // not_full_cond_.wait: unlock and fall asleep
    | PutAsleep(x: Value, n: nat)
    | PutWoken(x: Value, n: nat)        // lock tail_mtx_ again
    | PutActive(x: Value, n: nat)       // if ! active_()
    | PutReject                         // throw: unlock
    | PutValue(x: Value, n: nat)        // tail_->va = t
    | PutLink(x: Value, n: nat)         // tail_->next = new_node
    | PutMove(x: Value, n: nat)         // tail_ = new_node
    | PutCount                          // count_.fetch_add
    | PutUnlock
    | PutNotify                         // not_empty_cond_.notify_one
    // take, and try_take when `once`
    | TakeLock(once: bool)
    | TakeEmpty(once: bool)             // empty_()
    | TakeCheck(empty: bool)            // if ! active_() && empty
    | TakeLoopActive                    // while active_() ...
    | TakeLoopEmpty                     // ... && empty_()
    | TakeSleep                         // not_empty_cond_.wait: unlock and fall asleep
    | TakeAsleep
    | TakeWoken                         // lock head_mtx_ again
    | TakeGuardActive                   // if ! active_() ...
    | TakeGuardEmpty                    // ... && empty_()
    | TakeSwap                          // swap( va, head_->va)
    | TakePop(va: Option<Value>)        // head_ = old_head->next
    | TakeSub(va: Option<Value>)        // count_.fetch_sub
    | TakeSize(va: Option<Value>)       // size_() <= lwm_; va always holds a value by then
    | TakeNotify(va: Option<Value>)     // not_full_cond_.notify_one or notify_all
    | TakeUnlock(va: Option<Value>)
    | TakeFail(once: bool)              // return false: unlock
    // deactivate
    | StopHead                          // lock head_mtx_
    | StopTail                          // lock tail_mtx_
    | StopNotEmpty                      // not_empty_cond_.notify_all
    | StopNotFull                       // not_full_cond_.notify_all
    | StopStore                         // state_.store( DEACTIVE)
    | StopUnlockTail
    | StopUnlockHead

  /** The shared variables; len is the number of values linked between head_ and tail_. */
  datatype Shared = Shared(
    hwm: nat, lwm: nat, active: bool, count: int, len: int,
    headMtx: Owner, tailMtx: Owner)

  /** The nodes, head_ and tail_; the list from head_ to tail_; and the history of values
      accepted by put and handed out by take. */
  datatype Heap = Heap(nodes: seq<Node>, head: nat, tail: nat, chain: seq<nat>, accepted: seq<Value>, taken: seq<Value>)

  datatype State = State(g: Shared, h: Heap, pc: seq<PC>)

  ghost predicate Init(s: State) {
    && s.g == Shared(s.g.hwm, s.g.lwm, true, 0, 0, Free, Free) && s.g.lwm <= s.g.hwm
    && s.h == Heap([BLANK], 0, 0, [0], [], [])
    && forall t :: 0 <= t < |s.pc| ==> s.pc[t] == Out
  }

  ghost predicate CallStep(g: Shared, p: PC, g': Shared, p': PC) {
    g' == g && p == Out && (p'.PutAlloc? || p'.TakeLock? || p' == StopHead)
  }

  /** put by thread t, up to the decision; node is the one an allocation would get. */
  ghost predicate AskStep(g: Shared, node: nat, p: PC, t: Tid, g': Shared, p': PC) {
    match p
    case PutAlloc(x) => g' == g && p' == PutLock(x, node)
    case PutLock(x, n) => g.tailMtx == Free && g' == g.(tailMtx := By(t)) && p' == PutFull(x, n)
    case PutFull(x, n) => g' == g && p' == if g.count >= g.hwm then PutLoopActive(x, n) else PutActive(x, n)
    case PutLoopActive(x, n) => g' == g && p' == if g.active then PutLoopFull(x, n) else PutActive(x, n)
    case PutLoopFull(x, n) => g' == g && p' == if g.count >= g.hwm then PutSleep(x, n) else PutActive(x, n)
    case PutSleep(x, n) => g' == g.(tailMtx := Free) && p' == PutAsleep(x, n)
    case PutAsleep(x, n) => g' == g && p' == PutWoken(x, n)
    case PutWoken(x, n) => g.tailMtx == Free && g' == g.(tailMtx := By(t)) && p' == PutLoopActive(x, n)
    case PutActive(x, n) => g' == g && p' == if g.active then PutValue(x, n) else PutReject
    case PutReject => g' == g.(tailMtx := Free) && p' == Out
    case _ => false
  }

  /** Linking the value in and leaving put. */
  ghost predicate StoreStep(g: Shared, p: PC, g': Shared, p': PC) {
    match p
    case PutValue(x, n) => g' == g && p' == PutLink(x, n)
    case PutLink(x, n) => g' == g && p' == PutMove(x, n)
    case PutMove(x, n) => g' == g.(len := g.len + 1) && p' == PutCount
    case PutCount => g' == g.(count := g.count + 1) && p' == PutUnlock
    case PutUnlock => g' == g.(tailMtx := Free) && p' == PutNotify
    case _ => false
  }

  /** Entering take or try_take, up to the decision; empty is what empty_() sees. */
  ghost predicate EnterStep(g: Shared, empty: bool, p: PC, t: Tid, g': Shared, p': PC) {
    match p
    case TakeLock(once) => g.headMtx == Free && g' == g.(headMtx := By(t)) && p' == TakeEmpty(once)
    case TakeEmpty(once) =>
      && g.tailMtx == Free && g' == g
      && p' == if !once then TakeCheck(empty) else if empty then TakeFail(true) else TakeSwap
    case TakeCheck(e) =>
      g' == g && p' == if !g.active && e then TakeFail(false) else if e then TakeLoopActive else TakeGuardActive
    case TakeLoopActive => g' == g && p' == if g.active then TakeLoopEmpty else TakeGuardActive
    case TakeLoopEmpty => g.tailMtx == Free && g' == g && p' == if empty then TakeSleep else TakeGuardActive
    case TakeSleep => g' == g.(headMtx := Free) && p' == TakeAsleep
    case TakeAsleep => g' == g && p' == TakeWoken
    case TakeWoken => g.headMtx == Free && g' == g.(headMtx := By(t)) && p' == TakeLoopActive
    case TakeGuardActive => g' == g && p' == if g.active then TakeSwap else TakeGuardEmpty
    case TakeGuardEmpty => g.tailMtx == Free && g' == g && p' == if empty then TakeFail(false) else TakeSwap
    case _ => false
  }

  /** Taking the value and leaving; va is what the head node holds. */
  ghost predicate LeaveStep(g: Shared, va: Option<Value>, p: PC, g': Shared, p': PC) {
    match p
    case TakeSwap => g' == g && p' == TakePop(va)
    case TakePop(v) => g' == g.(len := g.len - 1) && p' == TakeSub(v)
    case TakeSub(v) => g' == g.(count := g.count - 1) && p' == TakeSize(v)
    case TakeSize(v) => g' == g && p' == if g.count <= g.lwm then TakeNotify(v) else TakeUnlock(v)
    case TakeUnlock(v) => g' == g.(headMtx := Free) && p' == Out
    case TakeFail(once) => g' == g.(headMtx := Free) && p' == Out
    case _ => false
  }

  ghost predicate StopStep(g: Shared, p: PC, t: Tid, g': Shared, p': PC) {
    match p
    case StopHead => g.headMtx == Free && g' == g.(headMtx := By(t)) && p' == StopTail
    case StopTail => g.tailMtx == Free && g' == g.(tailMtx := By(t)) && p' == StopNotEmpty
    case StopStore => g' == g.(active := false) && p' == StopUnlockTail
    case StopUnlockTail => g' == g.(tailMtx := Free) && p' == StopUnlockHead
    case StopUnlockHead => g' == g.(headMtx := Free) && p' == Out
    case _ => false
  }

  /** The value that the node at head_ holds. */
  function Front(h: Heap): Option<Value> { if h.head < |h.nodes| then h.nodes[h.head].va else None }

  /** An access by thread t at p, other than a notification. */
  ghost predicate Act(g: Shared, h: Heap, p: PC, t: Tid, g': Shared, p': PC) {
    || CallStep(g, p, g', p')
    || AskStep(g, |h.nodes|, p, t, g', p')
    || StoreStep(g, p, g', p')
    || EnterStep(g, h.head == h.tail, p, t, g', p')
    || LeaveStep(g, Front(h), p, g', p')
    || StopStep(g, p, t, g', p')
  }

  predicate Sound(h: Heap) { h.head < |h.nodes| && h.tail < |h.nodes| && h.chain != [] }

  /** What the access of a thread at p does to the nodes. */
  ghost predicate HeapStep(h: Heap, p: PC, h': Heap)
    requires Sound(h)
  {
    match p
    case PutAlloc(x) => h' == h.(nodes := h.nodes + [BLANK])
    case PutValue(x, n) => h' == h.(nodes := h.nodes[h.tail := h.nodes[h.tail].(va := Some(x))])
    case PutLink(x, n) => h' == h.(nodes := h.nodes[h.tail := h.nodes[h.tail].(next := Some(n))])
    case PutMove(x, n) => h' == h.(tail := n, chain := h.chain + [n], accepted := h.accepted + [x])
    case TakeSwap => exists spare: Option<Value> :: h' == h.(nodes := h.nodes[h.head := h.nodes[h.head].(va := spare)])
    case TakePop(v) =>
      && h.nodes[h.head].next.Some?
      && h' == h.(head := h.nodes[h.head].next.value, chain := h.chain[1..],
                  taken := h.taken + if v.Some? then [v.value] else [])
    case _ => h' == h
  }

  ghost predicate ActStep(s: State, t: Tid, s': State) {
    Alone(s, t, s') && Act(s.g, s.h, s.pc[t], t, s'.g, s'.pc[t])
  }

  /** Only thread t moves, and does to the nodes what it does where it stands. */
  ghost predicate Alone(s: State, t: Tid, s': State) {
    && t < |s.pc| == |s'.pc| && s'.pc == s.pc[t := s'.pc[t]]
    && Sound(s.h) && HeapStep(s.h, s.pc[t], s'.h)
  }

  /** notify_all wakes every sleeper; notify_one may wake anyone, so that nothing proved here
      depends on whom it picks. */
  ghost predicate Wakes(s: State, t: Tid, producers: bool, all: bool, s': State)
    requires t < |s.pc| == |s'.pc|
  {
    && (forall u :: 0 <= u < |s.pc| && u != t ==> s'.pc[u] == s.pc[u] || s'.pc[u] == Awake(s.pc[u], producers))
    && (all ==> forall u :: 0 <= u < |s.pc| && u != t ==> s'.pc[u] == Awake(s.pc[u], producers))
  }

  function Awake(p: PC, producers: bool): PC {
    if producers && p.PutAsleep? then PutWoken(p.x, p.n)
    else if !producers && p.TakeAsleep? then TakeWoken
    else p
  }

  /** Where a notification takes the notifier; whom it wakes; and whether all of them. */
  predicate NotifyTurn(p: PC, p': PC) {
    match p
    case PutNotify => p' == Out
    case TakeNotify(v) => p' == TakeUnlock(v)
    case StopNotEmpty => p' == StopNotFull
    case StopNotFull => p' == StopStore
    case _ => false
  }

  predicate ForProducers(p: PC) { p.TakeNotify? || p.StopNotFull? }

  predicate ForAll(g: Shared, p: PC) { p.StopNotEmpty? || p.StopNotFull? || (p.TakeNotify? && g.lwm != g.hwm) }

  ghost predicate NotifyStep(s: State, t: Tid, s': State) {
    && s'.g == s.g && s'.h == s.h && t < |s.pc| == |s'.pc|
    && NotifyTurn(s.pc[t], s'.pc[t])
    && Wakes(s, t, ForProducers(s.pc[t]), ForAll(s.g, s.pc[t]), s')
  }

  ghost predicate Next(s: State, s': State) {
    exists t: Tid :: ActStep(s, t, s') || NotifyStep(s, t, s')
  }

  // The counters and the locks ------------------------------------------------------

  predicate InHead(p: PC) {
    || p.TakeEmpty? || p.TakeCheck? || p.TakeLoopActive? || p.TakeLoopEmpty? || p.TakeSleep?
    || p.TakeGuardActive? || p.TakeGuardEmpty?
    || p.TakeSwap? || p.TakePop? || p.TakeSub? || p.TakeSize? || p.TakeNotify? || p.TakeUnlock? || p.TakeFail?
    || p.StopTail? || p.StopNotEmpty? || p.StopNotFull? || p.StopStore? || p.StopUnlockTail? || p.StopUnlockHead?
  }

  predicate InTail(p: PC) {
    || p.PutFull? || p.PutLoopActive? || p.PutLoopFull? || p.PutSleep? || p.PutActive? || p.PutReject?
    || p.PutValue? || p.PutLink? || p.PutMove? || p.PutCount? || p.PutUnlock?
    || p.StopNotEmpty? || p.StopNotFull? || p.StopStore? || p.StopUnlockTail?
  }

  /** Between the check of put and its fetch_add. */
  predicate Accepting(p: PC) { p.PutValue? || p.PutLink? || p.PutMove? || p.PutCount? }

  /** What the owner of tail_mtx_, at q, has established. */
  ghost predicate TailLocal(g: Shared, q: PC) {
    && (Accepting(q) ==> g.active && g.count < g.hwm)
    && (q.PutValue? || q.PutLink? || q.PutMove? ==> g.len < g.hwm)
    && (q.PutActive? && g.active ==> g.count < g.hwm && g.len < g.hwm)
    && (q.PutLoopFull? || q.PutSleep? ==> g.active)
  }

  /** A value is in the list that no producer is still about to count. */
  ghost predicate Ready(g: Shared, q: PC) { g.len >= 1 + B(q.PutCount?) }

  /** What the owner of head_mtx_, at p, has established, with q at the tail. */
  ghost predicate HeadLocal(g: Shared, p: PC, q: PC) {
    && (p.TakeSwap? || p.TakePop? ==> Ready(g, q))
    && (p.TakeCheck? ==> if p.empty then g.active || g.len == 0 else Ready(g, q))
    && (p.TakeGuardActive? && g.active ==> Ready(g, q))
    && (p.TakeLoopEmpty? || p.TakeSleep? ==> g.active)
    && (p.TakeGuardEmpty? ==> !g.active)
    && (p.TakeFail? && !p.once ==> !g.active && g.len == 0)
  }

  ghost predicate Numbers(g: Shared, p: PC, q: PC) {
    && g.count == g.len - B(q.PutCount?) + B(p.TakeSub?)
    && B(q.PutCount?) <= g.len <= g.hwm && g.count <= g.hwm
  }

  /** The counters, with p the thread at the head and q the thread at the tail. */
  ghost predicate Counters(g: Shared, p: PC, q: PC) {
    Numbers(g, p, q) && TailLocal(g, q) && HeadLocal(g, p, q)
  }

  function AtHead(s: State): PC { Holder(s.pc, s.g.headMtx, Out) }

  function AtTail(s: State): PC { Holder(s.pc, s.g.tailMtx, Out) }

  ghost predicate Exclusion(s: State) {
    Guards(s.pc, s.g.headMtx, InHead) && Guards(s.pc, s.g.tailMtx, InTail)
  }

  /** Who stands in a critical section after some thread went from p to p'. */
  function Then(holder: PC, p: PC, p': PC, inside: PC -> bool): PC { HolderAfter(holder, p, p', inside, Out) }

  /** The step of a thread at p fits the locks. */
  ghost predicate FitsLocks(g: Shared, p: PC, ph: PC, qt: PC) {
    && (InHead(p) ==> ph == p) && (InTail(p) ==> qt == p)
    && (g.headMtx == Free ==> ph == Out) && (g.tailMtx == Free ==> qt == Out)
    && (ph == Out || InHead(ph)) && (qt == Out || InTail(qt))
    && ((p.StopNotEmpty? || p.StopNotFull? || p.StopStore? || p.StopUnlockTail?) ==> ph == qt)
  }

  /** What thread t, going from p to p', did to the locks and to the plain fields. */
  ghost predicate Shifts(g: Shared, p: PC, t: Tid, g': Shared, p': PC) {
    && LockMoves(g.headMtx, p, t, g'.headMtx, p', InHead) && LockMoves(g.tailMtx, p, t, g'.tailMtx, p', InTail)
    && g'.len == g.len + B(p.PutMove?) - B(p.TakePop?)
    && g'.active == (g.active && !p.StopStore?)
    && g'.hwm == g.hwm && g'.lwm == g.lwm
  }

  /** The counters after a step on the tail side, on the head side, or on both. */
  ghost predicate SideTail(p: PC, g': Shared, p': PC, ph: PC, qt: PC) {
    !InHead(p) && !InHead(p') && Counters(g', ph, Then(qt, p, p', InTail))
  }

  ghost predicate SideHead(p: PC, g': Shared, p': PC, ph: PC, qt: PC) {
    !InTail(p) && !InTail(p') && Counters(g', Then(ph, p, p', InHead), qt)
  }

  ghost predicate SideBoth(p: PC, g': Shared, p': PC, ph: PC, qt: PC) {
    Counters(g', Then(ph, p, p', InHead), Then(qt, p, p', InTail))
  }

  ghost predicate Sides(p: PC, g': Shared, p': PC, ph: PC, qt: PC) {
    SideTail(p, g', p', ph, qt) || SideHead(p, g', p', ph, qt) || SideBoth(p, g', p', ph, qt)
  }

  lemma AskFacts(g: Shared, node: nat, p: PC, t: Tid, g': Shared, p': PC)
    requires AskStep(g, node, p, t, g', p')
    requires InTail(p) ==> TailLocal(g, p) && g.len <= g.count
    ensures g' == g.(tailMtx := g'.tailMtx)
    ensures !p.PutCount? && !p'.PutCount? && !InHead(p) && !InHead(p')
    ensures InTail(p') && !InTail(p) ==> g.tailMtx == Free
    ensures InTail(p') ==> TailLocal(g', p')
  {
  }

  lemma AskShifts(g: Shared, node: nat, p: PC, t: Tid, g': Shared, p': PC)
    requires AskStep(g, node, p, t, g', p')
    ensures !InHead(p) && !InHead(p') && Shifts(g, p, t, g', p')
  {
  }

  lemma AskCounters(g: Shared, node: nat, p: PC, t: Tid, g': Shared, p': PC, ph: PC, qt: PC)
    requires Counters(g, ph, qt) && AskStep(g, node, p, t, g', p') && FitsLocks(g, p, ph, qt)
    ensures !InHead(p) && !InHead(p') && Counters(g', ph, Then(qt, p, p', InTail))
  {
    AskFacts(g, node, p, t, g', p');
  }

  lemma StoreShifts(g: Shared, p: PC, t: Tid, g': Shared, p': PC)
    requires StoreStep(g, p, g', p')
    ensures Shifts(g, p, t, g', p')
  {
  }

  lemma StoreCounters(g: Shared, p: PC, t: Tid, g': Shared, p': PC, ph: PC, qt: PC)
    requires Counters(g, ph, qt) && StoreStep(g, p, g', p') && FitsLocks(g, p, ph, qt)
    ensures !InHead(p) && !InHead(p') && Counters(g', ph, Then(qt, p, p', InTail))
  {
  }

  lemma EnterFrame(g: Shared, empty: bool, p: PC, t: Tid, g': Shared, p': PC)
    requires EnterStep(g, empty, p, t, g', p')
    ensures g' == g.(headMtx := g'.headMtx)
    ensures !p.TakeSub? && !p'.TakeSub? && !InTail(p) && !InTail(p')
    ensures InHead(p') && !InHead(p) ==> g.headMtx == Free
  {
  }

  lemma EnterFacts(g: Shared, empty: bool, p: PC, t: Tid, g': Shared, p': PC, qt: PC)
    requires EnterStep(g, empty, p, t, g', p')
    requires InHead(p) ==> HeadLocal(g, p, qt)
    requires empty <==> g.len == 0
    requires 0 <= g.len && (g.tailMtx == Free ==> !qt.PutCount?)
    ensures InHead(p') ==> HeadLocal(g', p', qt)
  {
  }

  lemma EnterShifts(g: Shared, empty: bool, p: PC, t: Tid, g': Shared, p': PC)
    requires EnterStep(g, empty, p, t, g', p')
    ensures !InTail(p) && !InTail(p') && Shifts(g, p, t, g', p')
  {
  }

  lemma EnterCounters(g: Shared, empty: bool, p: PC, t: Tid, g': Shared, p': PC, ph: PC, qt: PC)
    requires Counters(g, ph, qt) && EnterStep(g, empty, p, t, g', p') && FitsLocks(g, p, ph, qt)
    requires empty <==> g.len == 0
    ensures !InTail(p) && !InTail(p') && Counters(g', Then(ph, p, p', InHead), qt)
  {
    EnterFrame(g, empty, p, t, g', p');
    EnterFacts(g, empty, p, t, g', p', qt);
  }

  lemma LeaveShifts(g: Shared, va: Option<Value>, p: PC, t: Tid, g': Shared, p': PC)
    requires LeaveStep(g, va, p, g', p')
    ensures Shifts(g, p, t, g', p')
  {
  }

  lemma LeaveCounters(g: Shared, va: Option<Value>, p: PC, t: Tid, g': Shared, p': PC, ph: PC, qt: PC)
    requires Counters(g, ph, qt) && LeaveStep(g, va, p, g', p') && FitsLocks(g, p, ph, qt)
    ensures !InTail(p) && !InTail(p') && Counters(g', Then(ph, p, p', InHead), qt)
  {
  }

  lemma StopShifts(g: Shared, p: PC, t: Tid, g': Shared, p': PC)
    requires StopStep(g, p, t, g', p')
    ensures Shifts(g, p, t, g', p')
  {
  }

  lemma StopCounters(g: Shared, p: PC, t: Tid, g': Shared, p': PC, ph: PC, qt: PC)
    requires Counters(g, ph, qt) && StopStep(g, p, t, g', p') && FitsLocks(g, p, ph, qt)
    ensures Counters(g', Then(ph, p, p', InHead), Then(qt, p, p', InTail))
  {
  }

  /** Only thread t moves, others at most wake up. */
  ghost predicate OnlyWakes(pc: seq<PC>, t: Tid, pc': seq<PC>) {
    && t < |pc| == |pc'|
    && forall u :: 0 <= u < |pc| && u != t ==>
        pc'[u] == pc[u] || pc'[u] == Awake(pc[u], true) || pc'[u] == Awake(pc[u], false)
  }

  lemma OthersStay(pc: seq<PC>, t: Tid, pc': seq<PC>, head: bool)
    requires OnlyWakes(pc, t, pc')
    ensures var inside := if head then InHead else InTail;
            forall u :: 0 <= u < |pc| && u != t ==>
                inside(pc'[u]) == inside(pc[u]) && (inside(pc[u]) ==> pc'[u] == pc[u])
  {
  }

  lemma StepLocks(s: State, t: Tid, s': State)
    requires Exclusion(s) && OnlyWakes(s.pc, t, s'.pc)
    requires LockMoves(s.g.headMtx, s.pc[t], t, s'.g.headMtx, s'.pc[t], InHead)
    requires LockMoves(s.g.tailMtx, s.pc[t], t, s'.g.tailMtx, s'.pc[t], InTail)
    ensures Exclusion(s')
    ensures AtHead(s') == Then(AtHead(s), s.pc[t], s'.pc[t], InHead)
    ensures AtTail(s') == Then(AtTail(s), s.pc[t], s'.pc[t], InTail)
  {
    OthersStay(s.pc, t, s'.pc, true);
    OthersStay(s.pc, t, s'.pc, false);
    GuardsMove(s.pc, t, s'.pc, s.g.headMtx, s'.g.headMtx, InHead, Out);
    GuardsMove(s.pc, t, s'.pc, s.g.tailMtx, s'.g.tailMtx, InTail, Out);
  }

  // The list ------------------------------------------------------------------------------

  /** The nodes from head_ to tail_ are linked in the order of chain, without repetition. */
  ghost predicate Linked(h: Heap) {
    && Sound(h)
    && h.chain[0] == h.head && h.chain[|h.chain| - 1] == h.tail
    && (forall i :: 0 <= i < |h.chain| ==> h.chain[i] < |h.nodes|)
    && (forall i, j :: 0 <= i < j < |h.chain| ==> h.chain[i] != h.chain[j])
    && (forall i :: 0 <= i < |h.chain| - 1 ==> h.nodes[h.chain[i]].next == Some(h.chain[i + 1]))
  }

  /** Values taken, then values stored, are the values accepted, in order; the first `skip`
      stored ones may have been swapped out of their nodes. */
  ghost predicate Ordered(h: Heap, skip: nat)
    requires Linked(h)
  {
    && |h.accepted| == |h.taken| + |h.chain| - 1
    && h.taken == h.accepted[..|h.taken|]
    && forall i :: skip <= i < |h.chain| - 1 ==> h.nodes[h.chain[i]].va == Some(h.accepted[|h.taken| + i])
  }

  /** The node that a producer at p has allocated and not linked in yet. */
  function Mine(p: PC): Option<nat> {
    if p.PutLock? || p.PutFull? || p.PutLoopActive? || p.PutLoopFull? || p.PutSleep? || p.PutAsleep? || p.PutWoken?
       || p.PutActive?
       || p.PutValue? || p.PutLink? || p.PutMove? then Some(p.n) else None
  }

  /** Such a node is blank, not in the list, and nobody else's. */
  ghost predicate Private(h: Heap, pc: seq<PC>) {
    && (forall t :: 0 <= t < |pc| && Mine(pc[t]).Some? ==>
          var n := Mine(pc[t]).value; n < |h.nodes| && n !in h.chain && h.nodes[n] == BLANK)
    && (forall t, u :: 0 <= t < u < |pc| && Mine(pc[t]).Some? ==> Mine(pc[t]) != Mine(pc[u]))
  }

  /** What the producer at the tail has written, and what the consumer at the head holds. */
  ghost predicate Hands(h: Heap, ph: PC, qt: PC)
    requires Sound(h)
  {
    && (qt.PutLink? || qt.PutMove? ==> h.nodes[h.tail].va == Some(qt.x))
    && (qt.PutMove? ==> h.nodes[h.tail].next == Some(qt.n))
    && (ph.TakePop? ==> |h.taken| < |h.accepted| && ph.va == Some(h.accepted[|h.taken|]))
    && (ph.TakeSub? || ph.TakeSize? || ph.TakeNotify? || ph.TakeUnlock? ==>
          |h.taken| > 0 && ph.va == Some(h.taken[|h.taken| - 1]))
  }

  ghost predicate List(h: Heap, ph: PC, qt: PC) {
    Linked(h) && Ordered(h, if ph.TakePop? then 1 else 0) && Hands(h, ph, qt)
  }

  lemma AllocList(h: Heap, h': Heap, ph: PC, qt: PC)
    requires List(h, ph, qt) && h' == h.(nodes := h.nodes + [BLANK])
    ensures List(h', ph, qt)
  {
  }

  /** A producer writes the tail node, which no consumer reads. */
  lemma WriteList(h: Heap, node: Node, h': Heap, ph: PC, qt: PC, qt': PC)
    requires List(h, ph, qt) && h' == h.(nodes := h.nodes[h.tail := node])
    requires qt'.PutLink? || qt'.PutMove? ==> node.va == Some(qt'.x)
    requires qt'.PutMove? ==> node.next == Some(qt'.n)
    ensures List(h', ph, qt')
  {
    assert forall i :: 0 <= i < |h.chain| - 1 ==> h.chain[i] != h.tail;
  }

  lemma MoveList(h: Heap, x: Value, n: nat, h': Heap, ph: PC, qt: PC, qt': PC)
    requires List(h, ph, qt) && qt == PutMove(x, n) && n < |h.nodes| && n !in h.chain
    requires h' == h.(tail := n, chain := h.chain + [n], accepted := h.accepted + [x])
    requires !qt'.PutLink? && !qt'.PutMove?
    ensures List(h', ph, qt') && |h'.chain| == |h.chain| + 1
  {
    assert h'.accepted[..|h.taken|] == h.accepted[..|h.taken|];
  }

  /** A consumer swaps the value out of the head node, which no producer writes. */
  lemma SwapList(h: Heap, va: Option<Value>, h': Heap, ph: PC, ph': PC, qt: PC)
    requires List(h, ph, qt) && !ph.TakePop? && |h.chain| > 1
    requires h' == h.(nodes := h.nodes[h.head := h.nodes[h.head].(va := va)])
    requires ph' == TakePop(h.nodes[h.head].va)
    ensures List(h', ph', qt)
  {
    assert forall i :: 1 <= i < |h.chain| ==> h.chain[i] != h.head;
  }

  lemma PopList(h: Heap, h': Heap, ph: PC, ph': PC, qt: PC)
    requires List(h, ph, qt) && ph.TakePop? && |h.chain| > 1 && h.nodes[h.head].next.Some?
    requires h' == h.(head := h.nodes[h.head].next.value, chain := h.chain[1..],
                      taken := h.taken + if ph.va.Some? then [ph.va.value] else [])
    requires ph' == TakeSub(ph.va)
    ensures List(h', ph', qt) && |h'.chain| == |h.chain| - 1
  {
    assert h.nodes[h.chain[0]].next == Some(h.chain[1]);
    assert h.accepted[..|h.taken| + 1] == h.accepted[..|h.taken|] + [h.accepted[|h.taken|]];
  }

  // The invariant -----------------------------------------------------------------------

  /** What the taker carries from the pop to its return. */
  predicate Holding(p: PC) { p.TakeSub? || p.TakeSize? || p.TakeNotify? || p.TakeUnlock? }

  /** An access that leaves the nodes alone. */
  predicate Quiet(p: PC, p': PC) {
    && !p'.PutLink? && !p'.PutMove? && !p'.TakePop? && !p.TakePop?
    && (Holding(p') ==> Holding(p) && p'.va == p.va)
  }

  predicate Touching(p: PC) { p.PutAlloc? || p.PutValue? || p.PutLink? || p.PutMove? || p.TakeSwap? || p.TakePop? }

  /** How the fields of a thread's own may change. */
  ghost predicate Carries(h: Heap, p: PC, p': PC) {
    && (!Touching(p) ==> Quiet(p, p') && (Mine(p') == Mine(p) || Mine(p') == None))
    && (p.PutAlloc? ==> p' == PutLock(p.x, |h.nodes|))
    && (p.PutValue? ==> p' == PutLink(p.x, p.n))
    && (p.PutLink? ==> p' == PutMove(p.x, p.n))
    && (p.PutMove? ==> p' == PutCount)
    && (p.TakeSwap? ==> p' == TakePop(Front(h)))
    && (p.TakePop? ==> p' == TakeSub(p.va))
  }

  /** Only a loop that has seen the channel active puts a thread to sleep. */
  predicate Naps(p: PC, p': PC) {
    && (p'.TakeAsleep? ==> p.TakeSleep?) && (p'.PutAsleep? ==> p.PutSleep?)
    && !p'.StopNotFull? && !p'.StopStore?
  }

  lemma AskCarries(g: Shared, h: Heap, p: PC, t: Tid, g': Shared, p': PC)
    requires AskStep(g, |h.nodes|, p, t, g', p')
    ensures Carries(h, p, p') && Naps(p, p')
  {
  }

  lemma StoreCarries(g: Shared, h: Heap, p: PC, g': Shared, p': PC)
    requires StoreStep(g, p, g', p')
    ensures Carries(h, p, p') && Naps(p, p')
  {
  }

  lemma EnterCarries(g: Shared, h: Heap, p: PC, t: Tid, g': Shared, p': PC)
    requires EnterStep(g, h.head == h.tail, p, t, g', p')
    ensures Carries(h, p, p') && Naps(p, p')
  {
  }

  lemma LeaveCarries(g: Shared, h: Heap, p: PC, g': Shared, p': PC)
    requires LeaveStep(g, Front(h), p, g', p')
    ensures Carries(h, p, p') && Naps(p, p')
  {
  }

  lemma StopCarries(g: Shared, h: Heap, p: PC, t: Tid, g': Shared, p': PC)
    requires StopStep(g, p, t, g', p')
    ensures Carries(h, p, p') && Naps(p, p')
  {
  }

  lemma QuietList(h: Heap, p: PC, p': PC, ph: PC, qt: PC)
    requires List(h, ph, qt) && Quiet(p, p') && (InHead(p) ==> ph == p) && (InTail(p) ==> qt == p)
    requires InHead(p') && !InHead(p) ==> ph == Out
    ensures List(h, Then(ph, p, p', InHead), Then(qt, p, p', InTail))
  {
  }

  /** The list after an access at p, which brought the thread to p'. */
  ghost predicate ListMoves(h: Heap, p: PC, p': PC, h': Heap, ph: PC, qt: PC) {
    && List(h', Then(ph, p, p', InHead), Then(qt, p, p', InTail))
    && |h'.chain| == |h.chain| + B(p.PutMove?) - B(p.TakePop?)
  }

  /** The thread p is where the locks say, and what it takes or links in is there. */
  ghost predicate FitsList(h: Heap, p: PC, p': PC, ph: PC, qt: PC) {
    && List(h, ph, qt)
    && (InHead(p) ==> ph == p) && (InTail(p) ==> qt == p) && (InHead(p') && !InHead(p) ==> ph == Out)
    && (p.TakeSwap? || p.TakePop? ==> |h.chain| > 1)
    && (p.PutMove? ==> p.n < |h.nodes| && p.n !in h.chain)
  }

  lemma ValueMoves(h: Heap, p: PC, p': PC, h': Heap, ph: PC, qt: PC)
    requires FitsList(h, p, p', ph, qt) && HeapStep(h, p, h') && Carries(h, p, p') && p.PutValue?
    ensures ListMoves(h, p, p', h', ph, qt)
  {
    WriteList(h, h.nodes[h.tail].(va := Some(p.x)), h', ph, qt, p');
  }

  lemma LinkMoves(h: Heap, p: PC, p': PC, h': Heap, ph: PC, qt: PC)
    requires FitsList(h, p, p', ph, qt) && HeapStep(h, p, h') && Carries(h, p, p') && p.PutLink?
    ensures ListMoves(h, p, p', h', ph, qt)
  {
    WriteList(h, h.nodes[h.tail].(next := Some(p.n)), h', ph, qt, p');
  }

  lemma MoveMoves(h: Heap, p: PC, p': PC, h': Heap, ph: PC, qt: PC)
    requires FitsList(h, p, p', ph, qt) && HeapStep(h, p, h') && Carries(h, p, p') && p.PutMove?
    ensures ListMoves(h, p, p', h', ph, qt)
  {
    MoveList(h, p.x, p.n, h', ph, qt, p');
  }

  lemma SwapMoves(h: Heap, p: PC, p': PC, h': Heap, ph: PC, qt: PC)
    requires FitsList(h, p, p', ph, qt) && HeapStep(h, p, h') && Carries(h, p, p') && p.TakeSwap?
    ensures ListMoves(h, p, p', h', ph, qt)
  {
    var spare: Option<Value> :| h' == h.(nodes := h.nodes[h.head := h.nodes[h.head].(va := spare)]);
    SwapList(h, spare, h', ph, p', qt);
  }

  lemma PopMoves(h: Heap, p: PC, p': PC, h': Heap, ph: PC, qt: PC)
    requires FitsList(h, p, p', ph, qt) && HeapStep(h, p, h') && Carries(h, p, p') && p.TakePop?
    ensures ListMoves(h, p, p', h', ph, qt)
  {
    PopList(h, h', ph, p', qt);
  }

  lemma AllocMoves(h: Heap, p: PC, p': PC, h': Heap, ph: PC, qt: PC)
    requires List(h, ph, qt) && h' == h.(nodes := h.nodes + [BLANK]) && p.PutAlloc? && p'.PutLock?
    ensures ListMoves(h, p, p', h', ph, qt)
  {
    AllocList(h, h', Then(ph, p, p', InHead), Then(qt, p, p', InTail));
  }

  lemma QuietMoves(h: Heap, p: PC, p': PC, ph: PC, qt: PC)
    requires FitsList(h, p, p', ph, qt) && Carries(h, p, p') && !Touching(p)
    ensures ListMoves(h, p, p', h, ph, qt)
  {
    QuietList(h, p, p', ph, qt);
  }

  lemma HeapList(h: Heap, p: PC, p': PC, h': Heap, ph: PC, qt: PC)
    requires FitsList(h, p, p', ph, qt) && HeapStep(h, p, h') && Carries(h, p, p')
    ensures ListMoves(h, p, p', h', ph, qt)
  {
    if p.PutValue? {
      ValueMoves(h, p, p', h', ph, qt);
    } else if p.PutLink? {
      LinkMoves(h, p, p', h', ph, qt);
    } else if p.PutAlloc? {
      AllocMoves(h, p, p', h', ph, qt);
    } else if p.PutMove? {
      MoveMoves(h, p, p', h', ph, qt);
    } else if p.TakeSwap? {
      SwapMoves(h, p, p', h', ph, qt);
    } else if p.TakePop? {
      PopMoves(h, p, p', h', ph, qt);
    } else {
      QuietMoves(h, p, p', ph, qt);
    }
  }

  /** The nodes that a thread at p leaves alone, and the list it leaves. */
  ghost predicate Around(h: Heap, p: PC, h': Heap) {
    && |h.nodes| <= |h'.nodes|
    && (forall n :: 0 <= n < |h.nodes| && n !in h.chain ==> h'.nodes[n] == h.nodes[n])
    && (forall n :: n in h'.chain ==> n in h.chain || (p.PutMove? && n == p.n))
    && (p.PutAlloc? ==> h'.chain == h.chain && |h'.nodes| == |h.nodes| + 1 && h'.nodes[|h.nodes|] == BLANK)
  }

  lemma HeapAround(h: Heap, p: PC, h': Heap)
    requires Linked(h) && HeapStep(h, p, h')
    ensures Around(h, p, h')
  {
    assert h.chain[0] in h.chain && h.chain[|h.chain| - 1] in h.chain;
  }

  lemma PrivateKept(h: Heap, pc: seq<PC>, t: Tid, h': Heap, pc': seq<PC>)
    requires Linked(h) && Private(h, pc) && OnlyWakes(pc, t, pc')
    requires Around(h, pc[t], h')
    requires Mine(pc'[t]) == Mine(pc[t]) || Mine(pc'[t]) == None || (pc[t].PutAlloc? && Mine(pc'[t]) == Some(|h.nodes|))
    requires pc[t].PutMove? ==> Mine(pc'[t]) == None
    ensures Private(h', pc')
  {
    assert forall u :: 0 <= u < |pc| && u != t ==> Mine(pc'[u]) == Mine(pc[u]);
  }

  predicate Sleeps(p: PC) { p.PutAsleep? || p.TakeAsleep? }

  /** Who may sleep, with ph at the head. */
  ghost predicate Dozing(active: bool, pc: seq<PC>, ph: PC) {
    && (!active || ph.StopStore? ==> forall t :: 0 <= t < |pc| ==> !Sleeps(pc[t]))
    && (ph.StopNotFull? ==> forall t :: 0 <= t < |pc| ==> !pc[t].TakeAsleep?)
  }

  ghost predicate Inv(s: State) {
    && Exclusion(s)
    && Counters(s.g, AtHead(s), AtTail(s))
    && List(s.h, AtHead(s), AtTail(s))
    && Private(s.h, s.pc)
    && s.g.len == |s.h.chain| - 1
    && Dozing(s.g.active, s.pc, AtHead(s))
  }

  lemma InitInv(s: State)
    requires Init(s)
    ensures Inv(s)
  {
  }

  lemma LocksFit(s: State, t: Tid)
    requires Exclusion(s) && t < |s.pc|
    ensures FitsLocks(s.g, s.pc[t], AtHead(s), AtTail(s))
    ensures var ph := AtHead(s); ph.StopNotFull? || ph.StopStore? ==> AtTail(s) == ph
  {
  }

  lemma EmptyIff(h: Heap)
    requires Linked(h)
    ensures h.head == h.tail <==> |h.chain| == 1
  {
  }

  /** A producer about to move tail_ moves it to a node of its own. */
  lemma FitsHeap(s: State, t: Tid, p': PC)
    requires Inv(s) && t < |s.pc| && (InHead(p') && !InHead(s.pc[t]) ==> s.g.headMtx == Free)
    ensures FitsList(s.h, s.pc[t], p', AtHead(s), AtTail(s))
  {
    LocksFit(s, t);
    assert s.pc[t].PutMove? ==> Mine(s.pc[t]) == Some(s.pc[t].n);
  }

  /** How the step of thread t goes over to the new state. */
  ghost predicate Moves(s: State, t: Tid, s': State) {
    && OnlyWakes(s.pc, t, s'.pc)
    && Shifts(s.g, s.pc[t], t, s'.g, s'.pc[t]) && Sides(s.pc[t], s'.g, s'.pc[t], AtHead(s), AtTail(s))
    && Sound(s.h) && HeapStep(s.h, s.pc[t], s'.h) && Carries(s.h, s.pc[t], s'.pc[t])
  }

  lemma MovesLocks(s: State, t: Tid, s': State)
    requires Exclusion(s) && Moves(s, t, s')
    ensures Exclusion(s') && Counters(s'.g, AtHead(s'), AtTail(s'))
    ensures AtHead(s') == Then(AtHead(s), s.pc[t], s'.pc[t], InHead)
    ensures AtTail(s') == Then(AtTail(s), s.pc[t], s'.pc[t], InTail)
  {
    StepLocks(s, t, s');
  }

  lemma MovesList(s: State, t: Tid, s': State)
    requires Inv(s) && Moves(s, t, s')
    requires AtHead(s') == Then(AtHead(s), s.pc[t], s'.pc[t], InHead)
    requires AtTail(s') == Then(AtTail(s), s.pc[t], s'.pc[t], InTail)
    ensures List(s'.h, AtHead(s'), AtTail(s')) && s'.g.len == |s'.h.chain| - 1
  {
    FitsHeap(s, t, s'.pc[t]);
    HeapList(s.h, s.pc[t], s'.pc[t], s'.h, AtHead(s), AtTail(s));
  }

  lemma MovesPrivate(s: State, t: Tid, s': State)
    requires Linked(s.h) && Private(s.h, s.pc) && Moves(s, t, s')
    ensures Private(s'.h, s'.pc)
  {
    HeapAround(s.h, s.pc[t], s'.h);
    PrivateKept(s.h, s.pc, t, s'.h, s'.pc);
  }

  lemma MovesInv(s: State, t: Tid, s': State)
    requires Inv(s) && Moves(s, t, s') && Dozing(s'.g.active, s'.pc, AtHead(s'))
    ensures Inv(s')
  {
    MovesLocks(s, t, s');
    MovesList(s, t, s');
    MovesPrivate(s, t, s');
  }

  /** Thread t goes where its step may go, and nobody else falls asleep. */
  ghost predicate Steps(s: State, t: Tid, s': State) {
    Moves(s, t, s') && Alone(s, t, s') && Naps(s.pc[t], s'.pc[t])
  }

  lemma CallFacts(g: Shared, h: Heap, p: PC, t: Tid, g': Shared, p': PC)
    requires CallStep(g, p, g', p')
    ensures Shifts(g, p, t, g', p') && Carries(h, p, p') && Naps(p, p')
    ensures g' == g && !InHead(p) && !InHead(p') && !InTail(p) && !InTail(p')
  {
  }

  lemma CallSteps(s: State, t: Tid, s': State)
    requires Inv(s) && Alone(s, t, s') && CallStep(s.g, s.pc[t], s'.g, s'.pc[t])
    ensures Steps(s, t, s')
  {
    CallFacts(s.g, s.h, s.pc[t], t, s'.g, s'.pc[t]);
    assert SideTail(s.pc[t], s'.g, s'.pc[t], AtHead(s), AtTail(s));
  }

  lemma AskSteps(s: State, t: Tid, s': State)
    requires Inv(s) && Alone(s, t, s') && AskStep(s.g, |s.h.nodes|, s.pc[t], t, s'.g, s'.pc[t])
    ensures Steps(s, t, s')
  {
    LocksFit(s, t);
    AskShifts(s.g, |s.h.nodes|, s.pc[t], t, s'.g, s'.pc[t]);
    AskCounters(s.g, |s.h.nodes|, s.pc[t], t, s'.g, s'.pc[t], AtHead(s), AtTail(s));
    AskCarries(s.g, s.h, s.pc[t], t, s'.g, s'.pc[t]);
    assert SideTail(s.pc[t], s'.g, s'.pc[t], AtHead(s), AtTail(s));
  }

  lemma StoreSteps(s: State, t: Tid, s': State)
    requires Inv(s) && Alone(s, t, s') && StoreStep(s.g, s.pc[t], s'.g, s'.pc[t])
    ensures Steps(s, t, s')
  {
    LocksFit(s, t);
    StoreShifts(s.g, s.pc[t], t, s'.g, s'.pc[t]);
    StoreCounters(s.g, s.pc[t], t, s'.g, s'.pc[t], AtHead(s), AtTail(s));
    StoreCarries(s.g, s.h, s.pc[t], s'.g, s'.pc[t]);
    assert SideTail(s.pc[t], s'.g, s'.pc[t], AtHead(s), AtTail(s));
  }

  lemma EnterSteps(s: State, t: Tid, s': State)
    requires Inv(s) && Alone(s, t, s') && EnterStep(s.g, s.h.head == s.h.tail, s.pc[t], t, s'.g, s'.pc[t])
    ensures Steps(s, t, s')
  {
    LocksFit(s, t);
    EmptyIff(s.h);
    EnterShifts(s.g, s.h.head == s.h.tail, s.pc[t], t, s'.g, s'.pc[t]);
    EnterCounters(s.g, s.h.head == s.h.tail, s.pc[t], t, s'.g, s'.pc[t], AtHead(s), AtTail(s));
    EnterCarries(s.g, s.h, s.pc[t], t, s'.g, s'.pc[t]);
    assert SideHead(s.pc[t], s'.g, s'.pc[t], AtHead(s), AtTail(s));
  }

  lemma LeaveSteps(s: State, t: Tid, s': State)
    requires Inv(s) && Alone(s, t, s') && LeaveStep(s.g, Front(s.h), s.pc[t], s'.g, s'.pc[t])
    ensures Steps(s, t, s')
  {
    LocksFit(s, t);
    LeaveShifts(s.g, Front(s.h), s.pc[t], t, s'.g, s'.pc[t]);
    LeaveCounters(s.g, Front(s.h), s.pc[t], t, s'.g, s'.pc[t], AtHead(s), AtTail(s));
    LeaveCarries(s.g, s.h, s.pc[t], s'.g, s'.pc[t]);
    assert SideHead(s.pc[t], s'.g, s'.pc[t], AtHead(s), AtTail(s));
  }

  lemma StopSteps(s: State, t: Tid, s': State)
    requires Inv(s) && Alone(s, t, s') && StopStep(s.g, s.pc[t], t, s'.g, s'.pc[t])
    ensures Steps(s, t, s')
  {
    LocksFit(s, t);
    StopShifts(s.g, s.pc[t], t, s'.g, s'.pc[t]);
    StopCounters(s.g, s.pc[t], t, s'.g, s'.pc[t], AtHead(s), AtTail(s));
    StopCarries(s.g, s.h, s.pc[t], t, s'.g, s'.pc[t]);
    assert SideBoth(s.pc[t], s'.g, s'.pc[t], AtHead(s), AtTail(s));
  }

  lemma ActSteps(s: State, t: Tid, s': State)
    requires Inv(s) && ActStep(s, t, s')
    ensures Steps(s, t, s')
  {
    if CallStep(s.g, s.pc[t], s'.g, s'.pc[t]) {
      CallSteps(s, t, s');
    } else if AskStep(s.g, |s.h.nodes|, s.pc[t], t, s'.g, s'.pc[t]) {
      AskSteps(s, t, s');
    } else if StoreStep(s.g, s.pc[t], s'.g, s'.pc[t]) {
      StoreSteps(s, t, s');
    } else if EnterStep(s.g, s.h.head == s.h.tail, s.pc[t], t, s'.g, s'.pc[t]) {
      EnterSteps(s, t, s');
    } else if LeaveStep(s.g, Front(s.h), s.pc[t], s'.g, s'.pc[t]) {
      LeaveSteps(s, t, s');
    } else {
      StopSteps(s, t, s');
    }
  }

  /** A thread that goes to sleep has seen the channel active and keeps deactivate out. */
  lemma ActDozing(s: State, t: Tid, s': State)
    requires Inv(s) && Steps(s, t, s') && AtHead(s') == Then(AtHead(s), s.pc[t], s'.pc[t], InHead)
    ensures Dozing(s'.g.active, s'.pc, AtHead(s'))
  {
    LocksFit(s, t);
    assert Sleeps(s'.pc[t]) ==> s.g.active && s'.g.active && !AtHead(s').StopStore?;
  }

  lemma NotifyFacts(g: Shared, h: Heap, p: PC, t: Tid, p': PC)
    requires NotifyTurn(p, p')
    ensures Shifts(g, p, t, g, p') && Carries(h, p, p') && !Touching(p)
    ensures InHead(p) == InHead(p') && InTail(p) == InTail(p')
    ensures !Accepting(p') && !p'.PutActive? && !p'.PutLoopFull? && !p'.PutSleep? && !Sleeps(p')
    ensures !p.PutCount? && !p'.PutCount? && !p.TakeSub? && !p'.TakeSub?
    ensures forall q: PC :: HeadLocal(g, p', q)
  {
  }

  lemma NotifyMoves(s: State, t: Tid, s': State)
    requires Inv(s) && NotifyStep(s, t, s')
    ensures Moves(s, t, s')
  {
    LocksFit(s, t);
    NotifyFacts(s.g, s.h, s.pc[t], t, s'.pc[t]);
    assert SideBoth(s.pc[t], s'.g, s'.pc[t], AtHead(s), AtTail(s));
  }

  lemma NotifyDozing(s: State, t: Tid, s': State)
    requires Inv(s) && NotifyStep(s, t, s') && AtHead(s') == Then(AtHead(s), s.pc[t], s'.pc[t], InHead)
    ensures Dozing(s'.g.active, s'.pc, AtHead(s'))
  {
    LocksFit(s, t);
  }

  lemma NextInv(s: State, s': State)
    requires Inv(s) && Next(s, s')
    ensures Inv(s')
  {
    var t: Tid :| ActStep(s, t, s') || NotifyStep(s, t, s');
    if ActStep(s, t, s') {
      ActSteps(s, t, s');
      MovesLocks(s, t, s');
      ActDozing(s, t, s');
    } else {
      NotifyMoves(s, t, s');
      MovesLocks(s, t, s');
      NotifyDozing(s, t, s');
    }
    MovesInv(s, t, s');
  }

  ghost predicate Run(tr: seq<State>) { IsRun(Init, Next, tr) }

  lemma RunInv(tr: seq<State>, i: nat)
    requires Run(tr) && i < |tr|
    ensures Inv(tr[i])
  {
    forall s | Init(s) ensures Inv(s) { InitInv(s); }
    forall s, s' | Inv(s) && Next(s, s') ensures Inv(s') { NextInv(s, s'); }
    Always(Init, Next, Inv, tr, i);
  }

  // What every run guarantees -------------------------------------------------------------

  /** The values in the nodes from head_ up to tail_, in the order of their links. */
  ghost function Stored(h: Heap): seq<Option<Value>>
    requires Linked(h)
  {
    seq(|h.chain| - 1, i requires 0 <= i < |h.chain| - 1 => h.nodes[h.chain[i]].va)
  }

  function Somes(vs: seq<Value>): seq<Option<Value>> { seq(|vs|, i requires 0 <= i < |vs| => Some(vs[i])) }

  /** First in, first out: the values taken and then the values stored are the values
      accepted, in order. While a consumer is between its swap and its pop it holds the first
      stored value itself, and all the others are still in their nodes. */
  lemma ChannelFifo(tr: seq<State>, i: nat)
    requires Run(tr) && i < |tr|
    ensures Linked(tr[i].h)
    ensures var s := tr[i]; var stored := Stored(s.h);
            if AtHead(s).TakePop? then
              stored != [] && Somes(s.h.accepted) == Somes(s.h.taken) + [AtHead(s).va] + stored[1..]
            else Somes(s.h.accepted) == Somes(s.h.taken) + stored
  {
    RunInv(tr, i);
    var h := tr[i].h;
    var ph := AtHead(tr[i]);
    if ph.TakePop? {
      assert Stored(h) != [];
      forall k | 0 <= k < |h.accepted|
        ensures Somes(h.accepted)[k] == (Somes(h.taken) + [ph.va] + Stored(h)[1..])[k] {
        if k < |h.taken| { assert h.accepted[k] == h.taken[k]; }
      }
    } else {
      forall k | 0 <= k < |h.accepted| ensures Somes(h.accepted)[k] == (Somes(h.taken) + Stored(h))[k] {
        if k < |h.taken| { assert h.accepted[k] == h.taken[k]; }
      }
    }
  }

  /** A take that is about to return a value returns the one it took last. */
  lemma TakeReturnsTaken(tr: seq<State>, i: nat, t: Tid)
    requires Run(tr) && i < |tr| && t < |tr[i].pc| && tr[i].pc[t].TakeUnlock?
    ensures var h := tr[i].h; |h.taken| > 0 && tr[i].pc[t].va == Some(h.taken[|h.taken| - 1])
  {
    RunInv(tr, i);
    LocksFit(tr[i], t);
  }

  /** In the list of s, the head node is linked to another and no producer's own. */
  ghost predicate HeadApart(s: State) {
    && s.h.head != s.h.tail && s.h.head < |s.h.nodes| && s.h.nodes[s.h.head].next.Some?
    && forall u :: 0 <= u < |s.pc| ==> Mine(s.pc[u]) != Some(s.h.head)
  }

  lemma TakerApart(s: State, t: Tid)
    requires Inv(s) && t < |s.pc| && (s.pc[t].TakeSwap? || s.pc[t].TakePop?)
    ensures HeadApart(s) && |s.h.chain| > 1 && (s.pc[t].TakeSwap? ==> s.h.nodes[s.h.head].va.Some?)
  {
    LocksFit(s, t);
    EmptyIff(s.h);
    assert s.h.chain[0] in s.h.chain;
    assert s.h.nodes[s.h.chain[0]].next == Some(s.h.chain[1]);
    assert s.pc[t].TakeSwap? ==> s.h.nodes[s.h.chain[0]].va.Some?;
  }

  /** A consumer that reads or unlinks the head node finds a value and a successor there, in
      a node that is neither the one producers write nor anyone's fresh node. */
  lemma ConsumerApart(tr: seq<State>, i: nat, t: Tid)
    requires Run(tr) && i < |tr| && t < |tr[i].pc| && (tr[i].pc[t].TakeSwap? || tr[i].pc[t].TakePop?)
    ensures HeadApart(tr[i]) && (tr[i].pc[t].TakeSwap? ==> tr[i].h.nodes[tr[i].h.head].va.Some?)
  {
    RunInv(tr, i);
    TakerApart(tr[i], t);
  }

  /** count_ never exceeds hwm_ and never underflows, and neither does the list. */
  lemma ChannelBounds(tr: seq<State>, i: nat)
    requires Run(tr) && i < |tr|
    ensures 0 <= tr[i].g.count <= tr[i].g.hwm
    ensures 1 <= |tr[i].h.chain| <= tr[i].g.hwm + 1
    ensures forall t :: 0 <= t < |tr[i].pc| && tr[i].pc[t].TakeSub? ==> tr[i].g.count >= 1
  {
    RunInv(tr, i);
    forall t | 0 <= t < |tr[i].pc| && tr[i].pc[t].TakeSub? ensures tr[i].g.count >= 1 {
      LocksFit(tr[i], t);
    }
  }

  /** A take returns false only when the channel is inactive and every accepted value has
      been taken. */
  lemma CompleteDrain(tr: seq<State>, i: nat, t: Tid)
    requires Run(tr) && i < |tr| && t < |tr[i].pc| && tr[i].pc[t] == TakeFail(false)
    ensures !tr[i].g.active && tr[i].h.taken == tr[i].h.accepted
  {
    RunInv(tr, i);
    LocksFit(tr[i], t);
  }

  predicate Closed(s: State, accepted: seq<Value>) { !s.g.active && s.h.accepted == accepted }

  lemma ClosedKept(s: State, s': State, accepted: seq<Value>)
    requires Inv(s) && Next(s, s') && Closed(s, accepted)
    ensures Closed(s', accepted)
  {
    var t: Tid :| ActStep(s, t, s') || NotifyStep(s, t, s');
    if ActStep(s, t, s') {
      LocksFit(s, t);
      ActSteps(s, t, s');
    }
  }

  /** Once deactivate has stored the state nothing is accepted any more, ever, and nobody
      sleeps in put or in take. */
  lemma ClosedForever(tr: seq<State>, i: nat, j: nat)
    requires Run(tr) && i <= j < |tr| && !tr[i].g.active
    ensures !tr[j].g.active && tr[j].h.accepted == tr[i].h.accepted
    ensures forall t :: 0 <= t < |tr[j].pc| ==> !Sleeps(tr[j].pc[t])
  {
    var closed := (s: State) => Closed(s, tr[i].h.accepted);
    forall s | Init(s) ensures Inv(s) { InitInv(s); }
    forall s, s' | Inv(s) && Next(s, s') ensures Inv(s') { NextInv(s, s'); }
    forall s, s' | Inv(s) && Next(s, s') && closed(s) ensures closed(s') { ClosedKept(s, s', tr[i].h.accepted); }
    Forever(Init, Next, Inv, closed, tr, i, j);
    RunInv(tr, j);
  }
}
