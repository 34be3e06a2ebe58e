/** The work-stealing deque (wsq.cpp) with its owner and any number of thieves
    interleaved, one access per step. The owner puts and takes at the tail, thieves
    steal at the head under mtx_; for the last item they meet in a handshake: each first
    moves its own index and then reads the other's. */
module DequeRace {
  import opened Masks
  import opened Runs
  import Deque = WorkStealingDeque

  type Item = nat

  /** Where the owner stands. x is the item being put, tail the value of its local. */
  datatype OwnerPC =
    | Rest
    | PutTest(x: Item, tail: nat)        // tail <= head_idx_.load() + mask_
    | PutWrite(x: Item, tail: nat)       // fast path: array_[tail & mask_] = ca
    | PutCount(x: Item)                  // fast path: tail_idx_.fetch_add
    | PutLock(x: Item, tail: nat)        // slow path: lock mtx_
    | PutGrow(x: Item, tail: nat)        // slow path: grow if count >= mask_
    | PutWriteLocked(x: Item, tail: nat)
    | PutCountLocked(x: Item)
    | TakeStore(tail: nat)               // tail_idx_.exchange
    | TakeTest(tail: nat)                // head_idx_.load() <= tail
    | TakeSwap(tail: nat)                // ca.swap(array_[tail & mask_])
    | TakeLock(tail: nat)                // lock mtx_
    | TakeRetest(tail: nat)
    | TakeSwapLocked(tail: nat)
    | TakeRestore(tail: nat)             // tail_idx_.fetch_add
    | Unlock

  datatype ThiefPC =
    | Away
    | StealLoad                          // head_idx_.load()
    | StealAdvance(head: nat)            // head_idx_.exchange(head + 1)
    | StealTest(head: nat)               // head < tail_idx_.load()
    | StealSwap(head: nat)               // ca.swap(array_[head & mask_])
    | StealRestore(head: nat)            // head_idx_.store(head)
    | StealUnlock

  datatype Lock = Free | Owner | Thief(i: nat)

  /** mask_, head_idx_, tail_idx_ and the owner of mtx_. */
  datatype Shared = Shared(mask: nat, head: nat, tail: nat, lock: Lock)

  /** puts and outs: all items put so far and all items handed out so far. */
  datatype State = State(
    g: Shared, slots: seq<Item>, o: OwnerPC, th: seq<ThiefPC>,
    puts: multiset<Item>, outs: multiset<Item>)

  ghost predicate Init(s: State) {
    && s.g == Shared(Deque.INITIAL_SIZE - 1, 0, 0, Free) && |s.slots| == Deque.INITIAL_SIZE
    && s.o == Rest && (forall i :: 0 <= i < |s.th| ==> s.th[i] == Away)
    && s.puts == multiset{} && s.outs == multiset{}
  }

  /** put, one access at a time. */
  ghost predicate PutStep(g: Shared, o: OwnerPC, g': Shared, o': OwnerPC) {
    match o
    case Rest => g' == g && o'.PutTest? && o'.tail == g.tail
    case PutTest(x, tail) =>
      g' == g && o' == if tail <= g.head + g.mask then PutWrite(x, tail) else PutLock(x, tail)
    case PutWrite(x, tail) => g' == g && o' == PutCount(x)
    case PutCount(x) => g' == g.(tail := g.tail + 1) && o' == Rest
    case PutLock(x, tail) => g.lock == Free && g' == g.(lock := Owner) && o' == PutGrow(x, tail)
    case PutGrow(x, tail) =>
      if Grows(g) then
        && g' == g.(mask := 2 * g.mask + 1, head := 0, tail := g.tail - g.head)
        && o' == PutWriteLocked(x, g.tail - g.head)
      else g' == g && o' == PutWriteLocked(x, tail)
    case PutWriteLocked(x, tail) => g' == g && o' == PutCountLocked(x)
    case PutCountLocked(x) => g' == g.(tail := g.tail + 1) && o' == Unlock
    case Unlock => g' == g.(lock := Free) && o' == Rest
    case _ => false
  }

  /** put finds the array full once it has mtx_. */
  predicate Grows(g: Shared) { g.tail - g.head >= g.mask }

  /** try_take, one access at a time. */
  ghost predicate TakeStep(g: Shared, o: OwnerPC, g': Shared, o': OwnerPC) {
    match o
    case Rest => g' == g && o' == if g.tail == 0 then Rest else TakeStore(g.tail - 1)
    case TakeStore(tail) => g' == g.(tail := tail) && o' == TakeTest(tail)
    case TakeTest(tail) => g' == g && o' == if g.head <= tail then TakeSwap(tail) else TakeLock(tail)
    case TakeSwap(tail) => g' == g && o' == Rest
    case TakeLock(tail) => g.lock == Free && g' == g.(lock := Owner) && o' == TakeRetest(tail)
    case TakeRetest(tail) => g' == g && o' == if g.head <= tail then TakeSwapLocked(tail) else TakeRestore(tail)
    case TakeSwapLocked(tail) => g' == g && o' == Unlock
    case TakeRestore(tail) => g' == g.(tail := g.tail + 1) && o' == Unlock
    case _ => false
  }

  /** try_steal by thief i, one access at a time; a failed try_lock leaves it away. */
  ghost predicate StealStep(g: Shared, i: nat, p: ThiefPC, g': Shared, p': ThiefPC) {
    match p
    case Away => g.lock == Free && g' == g.(lock := Thief(i)) && p' == StealLoad
    case StealLoad => g' == g && p' == StealAdvance(g.head)
    case StealAdvance(head) => g' == g.(head := head + 1) && p' == StealTest(head)
    case StealTest(head) => g' == g && p' == if head < g.tail then StealSwap(head) else StealRestore(head)
    case StealSwap(head) => g' == g && p' == StealUnlock
    case StealRestore(head) => g' == g.(head := head) && p' == StealUnlock
    case StealUnlock => g' == g.(lock := Free) && p' == Away
  }

  predicate Writes(o: OwnerPC) { o.PutWrite? || o.PutWriteLocked? }

  predicate Counts(o: OwnerPC) { o.PutCount? || o.PutCountLocked? }

  predicate Swaps(o: OwnerPC) { o.TakeSwap? || o.TakeSwapLocked? }

  predicate Shaped(s: State) { |s.slots| == s.g.mask + 1 && IsPow2(s.g.mask + 1) }

  function At(s: State, i: nat): Item
    requires Shaped(s)
  {
    s.slots[Slot(i, s.g.mask)]
  }

  /** The slots after a step have x at index i and are otherwise those before. */
  ghost predicate Stored(s: State, i: nat, x: Item, s': State)
    requires Shaped(s)
  {
    s'.slots == s.slots[Slot(i, s.g.mask) := x]
  }

  /** What the owner's access does to the slots. */
  ghost predicate OwnerSlots(s: State, s': State)
    requires Shaped(s)
  {
    if Writes(s.o) then Stored(s, s.o.tail, s.o.x, s')
    else if Swaps(s.o) then exists ca :: Stored(s, s.o.tail, ca, s')
    else if s.o.PutGrow? && Grows(s.g) then
      && s.g.tail - s.g.head <= |s'.slots| == 2 * (s.g.mask + 1)
      && forall k :: 0 <= k < s.g.tail - s.g.head ==> s'.slots[k] == At(s, k + s.g.head)
    else s'.slots == s.slots
  }

  ghost predicate OwnerStep(s: State, s': State) {
    && Shaped(s)
    && (PutStep(s.g, s.o, s'.g, s'.o) || TakeStep(s.g, s.o, s'.g, s'.o))
    && OwnerSlots(s, s')
    && s'.th == s.th
    && s'.puts == s.puts + (if Counts(s.o) then multiset{s.o.x} else multiset{})
    && s'.outs == s.outs + (if Swaps(s.o) then multiset{At(s, s.o.tail)} else multiset{})
  }

  ghost predicate ThiefStep(s: State, i: nat, s': State) {
    && Shaped(s) && i < |s.th| == |s'.th|
    && StealStep(s.g, i, s.th[i], s'.g, s'.th[i])
    && (if s.th[i].StealSwap? then exists ca :: Stored(s, s.th[i].head, ca, s') else s'.slots == s.slots)
    && s'.th == s.th[i := s'.th[i]] && s'.o == s.o && s'.puts == s.puts
    && s'.outs == s.outs + (if s.th[i].StealSwap? then multiset{At(s, s.th[i].head)} else multiset{})
  }

  /** Everything the code can do. */
  ghost predicate Next(s: State, s': State) {
    OwnerStep(s, s') || exists i: nat :: ThiefStep(s, i, s')
  }

  // The invariant -----------------------------------------------------------------

  /** The thief that holds mtx_, if any. */
  function Active(s: State): ThiefPC {
    if s.g.lock.Thief? && s.g.lock.i < |s.th| then s.th[s.g.lock.i] else Away
  }

  /** This thief has advanced head_idx_ for an item it has not got yet. */
  predicate Tentative(p: ThiefPC) { p.StealTest? || p.StealSwap? || p.StealRestore? }

  /** The owner has lowered tail_idx_ for an item it has not got yet. */
  predicate Lowered(o: OwnerPC) {
    o.TakeTest? || o.TakeSwap? || o.TakeLock? || o.TakeRetest? || o.TakeSwapLocked? || o.TakeRestore?
  }

  /** Index of the oldest item that has not been handed out, with p the thief under way. */
  function Low(g: Shared, p: ThiefPC): nat { if Tentative(p) then p.head else g.head }

  /** Index behind the newest item that has not been handed out. */
  function High(g: Shared, o: OwnerPC): nat { if Lowered(o) then g.tail + 1 else g.tail }

  function Lo(s: State): nat { Low(s.g, Active(s)) }

  function Hi(s: State): nat { High(s.g, s.o) }

  /** The items in the deque, whatever the two indices say for the moment. */
  ghost function Items(s: State): seq<Item>
    requires Shaped(s) && Lo(s) <= Hi(s)
  {
    Deque.View(s.slots, Lo(s), Hi(s), s.g.mask)
  }

  predicate OwnerLocked(o: OwnerPC) {
    || o.PutGrow? || o.PutWriteLocked? || o.PutCountLocked? || o.Unlock?
    || o.TakeRetest? || o.TakeSwapLocked? || o.TakeRestore?
  }

  /** What the thief that holds mtx_ may rely on. */
  ghost predicate ThiefLocal(g: Shared, p: ThiefPC, hi: nat) {
    && (p.StealAdvance? ==> g.head == p.head)
    && (Tentative(p) ==> g.head == p.head + 1)
    && (p.StealSwap? ==> p.head < hi)
  }

  /** What the owner may rely on, with p the thief under way. */
  ghost predicate OwnerLocal(g: Shared, o: OwnerPC, p: ThiefPC) {
    && (o.PutTest? || o.PutLock? || o.PutGrow? || Writes(o) ==> o.tail == g.tail)
    && (Counts(o) || o.PutWriteLocked? ==> g.tail < Low(g, p) + g.mask + 1)
    && (o.TakeStore? ==> o.tail + 1 == g.tail)
    && (Lowered(o) ==> o.tail == g.tail)
    && (Swaps(o) ==> Low(g, p) <= o.tail && (p.StealSwap? ==> p.head < o.tail))
    && (o.TakeRestore? ==> Low(g, p) == g.tail + 1)
  }

  /** The indices, the owner and the thief under way fit together. */
  ghost predicate Indices(g: Shared, o: OwnerPC, p: ThiefPC) {
    && ThiefLocal(g, p, High(g, o))
    && OwnerLocal(g, o, p)
    && Low(g, p) <= High(g, o) <= Low(g, p) + g.mask + 1
  }

  ghost predicate Locks(s: State) {
    && (s.g.lock == Owner <==> OwnerLocked(s.o))
    && (forall i :: 0 <= i < |s.th| ==> (s.g.lock == Thief(i) <==> s.th[i] != Away))
    && (s.g.lock.Thief? ==> s.g.lock.i < |s.th|)
  }

  /** Every item put is in the deque or was handed out, once. */
  ghost predicate Conserved(s: State)
    requires Shaped(s) && Lo(s) <= Hi(s)
  {
    s.puts == s.outs + multiset(Items(s))
  }

  ghost predicate Control(s: State) {
    && Shaped(s)
    && Locks(s)
    && Indices(s.g, s.o, Active(s))
    && (Counts(s.o) ==> At(s, s.g.tail) == s.o.x)
  }

  ghost predicate Inv(s: State) { Control(s) && Conserved(s) }

  /** The slot a fast-path put writes is free: the array is not full of items that have not been handed out. */
  ghost predicate WriteIsSafe(s: State) {
    s.o.PutWrite? ==> Hi(s) - Lo(s) < s.g.mask + 1
  }

  /** A step that is not a fast-path put's write into a full array. */
  ghost predicate SafeNext(s: State, s': State) {
    (OwnerStep(s, s') && WriteIsSafe(s)) || exists i: nat :: ThiefStep(s, i, s')
  }

  lemma InitInv(s: State)
    requires Init(s)
    ensures Inv(s)
  {
    Deque.InitialSizeIsPow2();
    assert Items(s) == [];
  }

  // The indices -----------------------------------------------------------------

  /** A put moves the ends of the deque only by growing and by counting its item. */
  lemma PutEnds(g: Shared, o: OwnerPC, p: ThiefPC, g': Shared, o': OwnerPC)
    requires PutStep(g, o, g', o') && Indices(g, o, p)
    requires OwnerLocked(o) ==> p == Away
    ensures Low(g', p) == if o.PutGrow? && Grows(g) then 0 else Low(g, p)
    ensures High(g', o') == if o.PutGrow? && Grows(g) then g.tail - g.head else if Counts(o) then g.tail + 1
        else High(g, o)
  {
  }

  lemma PutIndices(g: Shared, o: OwnerPC, p: ThiefPC, g': Shared, o': OwnerPC)
    requires PutStep(g, o, g', o') && Indices(g, o, p)
    requires OwnerLocked(o) ==> p == Away
    requires o.PutWrite? ==> High(g, o) < Low(g, p) + g.mask + 1
    ensures Indices(g', o', p)
  {
    PutEnds(g, o, p, g', o');
  }

  /** A take moves the newer end of the deque only when it takes. */
  lemma TakeEnds(g: Shared, o: OwnerPC, p: ThiefPC, g': Shared, o': OwnerPC)
    requires TakeStep(g, o, g', o') && Indices(g, o, p)
    requires OwnerLocked(o) ==> p == Away
    ensures Low(g', p) == Low(g, p)
    ensures High(g', o') == if Swaps(o) then o.tail else High(g, o)
  {
  }

  lemma TakeIndices(g: Shared, o: OwnerPC, p: ThiefPC, g': Shared, o': OwnerPC)
    requires TakeStep(g, o, g', o') && Indices(g, o, p)
    requires OwnerLocked(o) ==> p == Away
    ensures Indices(g', o', p)
  {
    TakeEnds(g, o, p, g', o');
  }

  /** A steal moves the older end of the deque only when it takes. */
  lemma StealEnds(g: Shared, o: OwnerPC, p: ThiefPC, i: nat, g': Shared, p': ThiefPC)
    requires StealStep(g, i, p, g', p') && ThiefLocal(g, p, High(g, o))
    ensures Low(g', p') == if p.StealSwap? then p.head + 1 else Low(g, p)
    ensures g'.tail == g.tail && g'.mask == g.mask
    ensures ThiefLocal(g', p', High(g, o))
  {
  }

  lemma StealIndices(g: Shared, o: OwnerPC, p: ThiefPC, i: nat, g': Shared, p': ThiefPC)
    requires StealStep(g, i, p, g', p') && Indices(g, o, p)
    requires OwnerLocked(o) ==> g.lock == Owner && p == Away
    ensures Indices(g', o, p')
  {
    StealEnds(g, o, p, i, g', p');
    assert p'.StealSwap? ==> p'.head < g.tail;
    assert p.StealSwap? ==> !p'.StealSwap?;
    assert !OwnerLocked(o);
  }

  // Preservation ------------------------------------------------------------------

  /** What the owner's next access does to mtx_. */
  lemma OwnerLockMoves(g: Shared, o: OwnerPC, g': Shared, o': OwnerPC)
    requires PutStep(g, o, g', o') || TakeStep(g, o, g', o')
    requires g.lock == Owner <==> OwnerLocked(o)
    ensures g'.lock == g.lock || (g.lock == Free && g'.lock == Owner) || (g.lock == Owner && g'.lock == Free)
    ensures g'.lock == Owner <==> OwnerLocked(o')
  {
  }

  lemma OwnerLocks(s: State, s': State)
    requires Locks(s) && OwnerStep(s, s')
    ensures Locks(s') && Active(s') == Active(s)
    ensures OwnerLocked(s.o) ==> Active(s) == Away
  {
    OwnerLockMoves(s.g, s.o, s'.g, s'.o);
  }

  lemma ThiefLockMoves(g: Shared, i: nat, p: ThiefPC, g': Shared, p': ThiefPC)
    requires StealStep(g, i, p, g', p') && (g.lock == Thief(i) <==> p != Away)
    ensures g'.lock == if p == Away then Thief(i) else if p == StealUnlock then Free else g.lock
    ensures p' == Away <==> p == StealUnlock
    ensures p == Away ==> g.lock == Free
  {
  }

  lemma ThiefLocks(s: State, i: nat, s': State)
    requires Locks(s) && ThiefStep(s, i, s')
    ensures Locks(s') && Active(s) == s.th[i] && Active(s') == s'.th[i]
    ensures OwnerLocked(s.o) ==> s.g.lock == Owner && s.th[i] == Away
  {
    ThiefLockMoves(s.g, i, s.th[i], s'.g, s'.th[i]);
  }

  /** Writing behind the newest item of a deque that is not full leaves its items alone. */
  lemma WriteBehind(s: State, x: Item, s': State)
    requires Shaped(s) && Lo(s) <= Hi(s) < Lo(s) + s.g.mask + 1 && Stored(s, Hi(s), x, s')
    requires s'.g.mask == s.g.mask && Lo(s') == Lo(s) && Hi(s') == Hi(s)
    ensures Shaped(s') && Items(s') == Items(s) && At(s', Hi(s)) == x
  {
    Deque.ViewAppend(s.slots, Lo(s), Hi(s), s.g.mask, x);
    forall k | 0 <= k < |Items(s)| ensures Items(s')[k] == Items(s)[k] {
      SlotsDistinct(Lo(s) + k, Hi(s), s.g.mask);
    }
  }

  /** Counting the item written behind the newest one appends it. */
  lemma CountBehind(s: State, s': State)
    requires Shaped(s) && Lo(s) <= Hi(s) && s'.slots == s.slots
    requires s'.g.mask == s.g.mask && Lo(s') == Lo(s) && Hi(s') == Hi(s) + 1
    ensures Shaped(s') && Items(s') == Items(s) + [At(s, Hi(s))]
  {
  }

  lemma OwnerTakes(s: State, ca: Item, s': State)
    requires Shaped(s) && Lo(s) < Hi(s) <= Lo(s) + s.g.mask + 1 && Stored(s, Hi(s) - 1, ca, s')
    requires s'.g.mask == s.g.mask && Lo(s') == Lo(s) && Hi(s') == Hi(s) - 1
    ensures Shaped(s') && Items(s) == Items(s') + [At(s, Hi(s) - 1)]
  {
    Deque.ViewTake(s.slots, Lo(s), Hi(s) - 1, s.g.mask, ca);
  }

  lemma ThiefTakes(s: State, ca: Item, s': State)
    requires Shaped(s) && Lo(s) < Hi(s) <= Lo(s) + s.g.mask + 1 && Stored(s, Lo(s), ca, s')
    requires s'.g.mask == s.g.mask && Lo(s') == Lo(s) + 1 && Hi(s') == Hi(s)
    ensures Shaped(s') && Items(s) == [At(s, Lo(s))] + Items(s')
  {
    Deque.ViewSteal(s.slots, Lo(s), Hi(s), s.g.mask, ca);
  }

  lemma Growth(s: State, s': State)
    requires Shaped(s) && Lo(s) == s.g.head <= Hi(s) == s.g.tail <= Lo(s) + s.g.mask + 1
    requires s.o.PutGrow? && Grows(s.g) && OwnerSlots(s, s')
    requires s'.g.mask == 2 * s.g.mask + 1 && Lo(s') == 0 && Hi(s') == s.g.tail - s.g.head
    ensures Shaped(s') && Items(s') == Items(s)
  {
    Deque.ViewGrown(s.slots, s.g.head, s.g.tail, s.g.mask, s'.slots);
  }

  /** The owner's access in terms of the items: a put appends what it counts, a take removes the newest. */
  ghost predicate OwnerItems(s: State, s': State)
    requires Shaped(s) && Lo(s) <= Hi(s)
  {
    && Shaped(s') && Lo(s') <= Hi(s')
    && (if Counts(s.o) then Items(s') == Items(s) + [s.o.x]
        else if Swaps(s.o) then Items(s) == Items(s') + [At(s, s.o.tail)]
        else Items(s') == Items(s))
  }

  /** Where the two ends of the deque go with the owner's access. */
  ghost predicate OwnerEnds(s: State, s': State) {
    if s.o.PutGrow? && Grows(s.g) then
      s'.g.mask == 2 * s.g.mask + 1 && Lo(s') == 0 && Hi(s') == s.g.tail - s.g.head
    else
      && s'.g.mask == s.g.mask && Lo(s') == Lo(s)
      && Hi(s') == if Counts(s.o) then s.g.tail + 1 else if Swaps(s.o) then s.o.tail else Hi(s)
  }

  lemma OwnerContent(s: State, s': State)
    requires Control(s) && OwnerSlots(s, s') && OwnerEnds(s, s') && WriteIsSafe(s)
    requires s.o.PutGrow? ==> Active(s) == Away
    ensures OwnerItems(s, s')
    ensures Writes(s.o) && s'.g.tail == s.g.tail ==> At(s', s'.g.tail) == s.o.x
  {
    if s.o.PutGrow? && Grows(s.g) {
      Growth(s, s');
    } else if Writes(s.o) {
      WriteBehind(s, s.o.x, s');
    } else if Counts(s.o) {
      CountBehind(s, s');
    } else if Swaps(s.o) {
      var ca :| Stored(s, s.o.tail, ca, s');
      OwnerTakes(s, ca, s');
    }
  }

  lemma PutControl(s: State, s': State)
    requires Control(s) && OwnerStep(s, s') && PutStep(s.g, s.o, s'.g, s'.o) && WriteIsSafe(s)
    ensures Indices(s'.g, s'.o, Active(s')) && Locks(s') && OwnerEnds(s, s')
    ensures Counts(s'.o) ==> Writes(s.o) && s'.g.tail == s.g.tail && s'.o.x == s.o.x
  {
    OwnerLocks(s, s');
    PutIndices(s.g, s.o, Active(s), s'.g, s'.o);
    PutEnds(s.g, s.o, Active(s), s'.g, s'.o);
    PutFrame(s.g, s.o, s'.g, s'.o);
  }

  lemma PutFrame(g: Shared, o: OwnerPC, g': Shared, o': OwnerPC)
    requires PutStep(g, o, g', o')
    ensures g'.mask == if o.PutGrow? && Grows(g) then 2 * g.mask + 1 else g.mask
    ensures Counts(o') ==> Writes(o) && g'.tail == g.tail && o'.x == o.x
    ensures !Swaps(o)
  {
  }

  lemma TakeControl(s: State, s': State)
    requires Control(s) && OwnerStep(s, s') && TakeStep(s.g, s.o, s'.g, s'.o)
    ensures Indices(s'.g, s'.o, Active(s')) && Locks(s') && OwnerEnds(s, s')
    ensures !Counts(s'.o) && WriteIsSafe(s)
  {
    OwnerLocks(s, s');
    TakeIndices(s.g, s.o, Active(s), s'.g, s'.o);
    TakeEnds(s.g, s.o, Active(s), s'.g, s'.o);
    TakeFrame(s.g, s.o, s'.g, s'.o);
  }

  lemma TakeFrame(g: Shared, o: OwnerPC, g': Shared, o': OwnerPC)
    requires TakeStep(g, o, g', o')
    ensures g'.mask == g.mask && !Counts(o') && !Counts(o) && !o.PutGrow? && !o.PutWrite?
  {
  }

  lemma OwnerKeeps(s: State, s': State)
    requires Inv(s) && OwnerStep(s, s') && WriteIsSafe(s)
    ensures Inv(s') && OwnerItems(s, s')
  {
    OwnerLocks(s, s');
    if PutStep(s.g, s.o, s'.g, s'.o) {
      PutControl(s, s');
    } else {
      TakeControl(s, s');
    }
    OwnerContent(s, s');
  }

  /** The thief's access in terms of the items: a steal removes the oldest. */
  ghost predicate ThiefItems(s: State, i: nat, s': State)
    requires Shaped(s) && Lo(s) <= Hi(s) && i < |s.th|
  {
    && Shaped(s') && Lo(s') <= Hi(s')
    && if s.th[i].StealSwap? then Items(s) == [At(s, s.th[i].head)] + Items(s') else Items(s') == Items(s)
  }

  lemma ThiefControl(s: State, i: nat, s': State)
    requires Control(s) && ThiefStep(s, i, s')
    ensures Locks(s') && Indices(s'.g, s'.o, Active(s')) && s'.g.mask == s.g.mask && s'.g.tail == s.g.tail
    ensures Active(s) == s.th[i] && Hi(s') == Hi(s)
    ensures Lo(s') == if s.th[i].StealSwap? then s.th[i].head + 1 else Lo(s)
  {
    ThiefLocks(s, i, s');
    StealIndices(s.g, s.o, s.th[i], i, s'.g, s'.th[i]);
    StealEnds(s.g, s.o, s.th[i], i, s'.g, s'.th[i]);
  }

  lemma ThiefKeeps(s: State, i: nat, s': State)
    requires Inv(s) && ThiefStep(s, i, s')
    ensures Inv(s') && ThiefItems(s, i, s')
  {
    ThiefControl(s, i, s');
    ThiefContent(s, i, s');
  }

  lemma ThiefContent(s: State, i: nat, s': State)
    requires Control(s) && i < |s.th| && Active(s) == s.th[i]
    requires if s.th[i].StealSwap? then exists ca :: Stored(s, s.th[i].head, ca, s') else s'.slots == s.slots
    requires s'.g.mask == s.g.mask && Hi(s') == Hi(s) && s'.g.tail == s.g.tail
    requires Lo(s') == if s.th[i].StealSwap? then s.th[i].head + 1 else Lo(s)
    ensures ThiefItems(s, i, s')
    ensures Counts(s.o) ==> At(s', s'.g.tail) == s.o.x
  {
    if s.th[i].StealSwap? {
      var ca :| Stored(s, s.th[i].head, ca, s');
      ThiefTakes(s, ca, s');
      if Counts(s.o) { SlotsDistinct(s.th[i].head, s.g.tail, s.g.mask); }
    }
  }

  // What every run guarantees -------------------------------------------------------

  lemma SafeInv(s: State, s': State)
    requires Inv(s) && SafeNext(s, s')
    ensures Inv(s')
  {
    if OwnerStep(s, s') && WriteIsSafe(s) {
      OwnerKeeps(s, s');
    } else {
      var i: nat :| ThiefStep(s, i, s');
      ThiefKeeps(s, i, s');
    }
  }

  ghost predicate SafeRun(tr: seq<State>) { IsRun(Init, SafeNext, tr) }

  lemma SafeRunInv(tr: seq<State>, i: nat)
    requires SafeRun(tr) && i < |tr|
    ensures Inv(tr[i])
  {
    forall s | Init(s) ensures Inv(s) { InitInv(s); }
    forall s, s' | Inv(s) && SafeNext(s, s') ensures Inv(s') { SafeInv(s, s'); }
    Always(Init, SafeNext, Inv, tr, i);
  }

  /** However owner and thieves interleave, as long as no fast-path put writes into a full
      array every item put is in the deque or was handed out, exactly once; and there are
      never more items than slots. */
  lemma NothingLostNothingTwice(tr: seq<State>, i: nat)
    requires SafeRun(tr) && i < |tr|
    ensures Shaped(tr[i]) && Lo(tr[i]) <= Hi(tr[i])
    ensures tr[i].puts == tr[i].outs + multiset(Items(tr[i]))
    ensures |Items(tr[i])| <= tr[i].g.mask + 1
  {
    SafeRunInv(tr, i);
  }

  /** The owner is handed the newest item and a thief the oldest, also when both are after the last one. */
  lemma EndsOfTheDeque(tr: seq<State>, i: nat)
    requires SafeRun(tr) && i < |tr|
    ensures Shaped(tr[i]) && Lo(tr[i]) <= Hi(tr[i])
    ensures var s := tr[i]; Swaps(s.o) ==> |Items(s)| > 0 && At(s, s.o.tail) == Items(s)[|Items(s)| - 1]
    ensures var s := tr[i]; forall k :: 0 <= k < |s.th| && s.th[k].StealSwap? ==>
              |Items(s)| > (if Swaps(s.o) then 1 else 0) && At(s, s.th[k].head) == Items(s)[0]
  {
    SafeRunInv(tr, i);
    var s := tr[i];
    forall k | 0 <= k < |s.th| && s.th[k].StealSwap?
      ensures |Items(s)| > (if Swaps(s.o) then 1 else 0) && At(s, s.th[k].head) == Items(s)[0] {
      assert s.g.lock == Thief(k) && Active(s) == s.th[k];
    }
  }

  /** Nothing is lost from s on, as long as no further fast-path put writes into a full array. */
  ghost predicate KeepsAll(s: State) {
    forall e :: Leads(SafeNext, s, e) ==> Shaped(e) && Lo(e) <= Hi(e) && Conserved(e)
  }

  lemma SafeLeads(s: State, e: State)
    requires Inv(s) && Leads(SafeNext, s, e)
    ensures Inv(e)
  {
    forall a, b | Inv(a) && SafeNext(a, b) ensures Inv(b) { SafeInv(a, b); }
    LeadsKeeps(SafeNext, Inv, s, e);
  }

  /** The write of a fast-path put loses nothing, then or later, if and only if the array is
      not full. */
  lemma FastPutKeepsIff(s: State, s': State)
    requires Inv(s) && s.o.PutWrite? && OwnerStep(s, s')
    ensures KeepsAll(s') <==> WriteIsSafe(s)
  {
    if WriteIsSafe(s) {
      OwnerKeeps(s, s');
      forall e | Leads(SafeNext, s', e) ensures Shaped(e) && Lo(e) <= Hi(e) && Conserved(e) {
        SafeLeads(s', e);
      }
    } else {
      var e := FullWriteLoses(s, s');
    }
  }

  lemma WriteFrame(g: Shared, o: OwnerPC, g': Shared, o': OwnerPC)
    requires o.PutWrite? && (PutStep(g, o, g', o') || TakeStep(g, o, g', o'))
    ensures g' == g && High(g', o') == High(g, o) && !Counts(o)
  {
  }

  lemma WriteOverOldest(s: State, x: Item, s': State)
    requires Shaped(s) && Hi(s) == Lo(s) + s.g.mask + 1 && Stored(s, Hi(s), x, s')
    requires s'.g.mask == s.g.mask && Lo(s') == Lo(s) && Hi(s') == Hi(s)
    ensures Shaped(s') && Items(s') == Items(s)[0 := x]
  {
    var lo, mask := Lo(s), s.g.mask;
    SlotWraps(lo, mask);
    var old', new' := Items(s), Items(s');
    assert |old'| == |new'| == mask + 1;
    forall k | 0 <= k <= mask ensures new'[k] == old'[0 := x][k] {
      if k > 0 { SlotsDistinct(lo, lo + k, mask); }
    }
  }

  /** After a write into a full array the owner stands at o with tail_idx_ at tail. */
  ghost function After(s: State, o: OwnerPC, tail: nat, slots: seq<Item>, put: bool, taken: bool): State
    requires s.o.PutWrite?
  {
    var x := multiset{s.o.x};
    State(s.g.(tail := tail), slots, o, s.th,
          s.puts + (if put then x else multiset{}), s.outs + (if taken then x else multiset{}))
  }

  lemma WriteAfter(s: State, s': State)
    requires Shaped(s) && s.o.PutWrite? && OwnerStep(s, s')
    ensures var n := s.g.tail;
            && s' == After(s, PutCount(s.o.x), n, s'.slots, false, false)
            && Shaped(s') && s'.slots == s.slots[Slot(s.o.tail, s.g.mask) := s.o.x]
  {
    WriteFrame(s.g, s.o, s'.g, s'.o);
    assert s'.puts == s.puts && s'.outs == s.outs;
  }

  /** The owner finishes a put whose write went into a full array, and begins a take. */
  lemma CountSteps(s: State, slots: seq<Item>)
    requires Control(s) && s.o.PutWrite? && |slots| == |s.slots|
    ensures var n := s.g.tail;
            && SafeNext(After(s, PutCount(s.o.x), n, slots, false, false), After(s, Rest, n + 1, slots, true, false))
            && SafeNext(After(s, Rest, n + 1, slots, true, false), After(s, TakeStore(n), n + 1, slots, true, false))
  {
    var n := s.g.tail;
    var s1, s2 := After(s, PutCount(s.o.x), n, slots, false, false), After(s, Rest, n + 1, slots, true, false);
    assert OwnerStep(s1, s2) && OwnerStep(s2, After(s, TakeStore(n), n + 1, slots, true, false));
  }

  lemma CountLeads(s: State, s': State)
    requires Control(s) && s.o.PutWrite? && OwnerStep(s, s')
    ensures Leads(SafeNext, s', After(s, TakeStore(s.g.tail), s.g.tail + 1, s'.slots, true, false))
  {
    var n, slots := s.g.tail, s'.slots;
    WriteAfter(s, s');
    CountSteps(s, slots);
    LeadsNowhere(SafeNext, s');
    LeadsOn(SafeNext, s', s', After(s, Rest, n + 1, slots, true, false));
    LeadsOn(SafeNext, s', After(s, Rest, n + 1, slots, true, false), After(s, TakeStore(n), n + 1, slots, true, false));
  }

  /** It takes its item back. */
  lemma TakesBackTest(s: State, slots: seq<Item>)
    requires Control(s) && s.o.PutWrite? && !WriteIsSafe(s) && |slots| == |s.slots|
    ensures var n := s.g.tail;
            && SafeNext(After(s, TakeStore(n), n + 1, slots, true, false), After(s, TakeTest(n), n, slots, true, false))
            && SafeNext(After(s, TakeTest(n), n, slots, true, false), After(s, TakeSwap(n), n, slots, true, false))
  {
    var n := s.g.tail;
    var s3, s4 := After(s, TakeStore(n), n + 1, slots, true, false), After(s, TakeTest(n), n, slots, true, false);
    assert OwnerStep(s3, s4) && OwnerStep(s4, After(s, TakeSwap(n), n, slots, true, false));
  }

  lemma TakesBackItem(s: State, slots: seq<Item>, ca: Item)
    requires Control(s) && s.o.PutWrite? && slots == s.slots[Slot(s.g.tail, s.g.mask) := s.o.x]
    ensures var n := s.g.tail;
            SafeNext(After(s, TakeSwap(n), n, slots, true, false),
                     After(s, Rest, n, slots[Slot(n, s.g.mask) := ca], true, true))
  {
    var n := s.g.tail;
    var s5 := After(s, TakeSwap(n), n, slots, true, false);
    var s6 := After(s, Rest, n, slots[Slot(n, s.g.mask) := ca], true, true);
    assert At(s5, n) == s.o.x;
    assert Stored(s5, n, ca, s6) && OwnerStep(s5, s6);
  }

  lemma TakesBackLeads(s: State, s': State, ca: Item)
    requires Control(s) && s.o.PutWrite? && OwnerStep(s, s') && !WriteIsSafe(s)
    ensures var k := Slot(s.g.tail, s.g.mask);
            && |s.slots| > k
            && Leads(SafeNext, s', After(s, Rest, s.g.tail, s.slots[k := s.o.x][k := ca], true, true))
  {
    var n, slots := s.g.tail, s'.slots;
    WriteAfter(s, s');
    CountLeads(s, s');
    TakesBackTest(s, slots);
    TakesBackItem(s, slots, ca);
    TakeLeads(s', After(s, TakeStore(n), n + 1, slots, true, false), After(s, TakeTest(n), n, slots, true, false),
              After(s, TakeSwap(n), n, slots, true, false),
              After(s, Rest, n, slots[Slot(n, s.g.mask) := ca], true, true));
  }

  lemma TakeLeads(a: State, b: State, c: State, d: State, e: State)
    requires Leads(SafeNext, a, b) && SafeNext(b, c) && SafeNext(c, d) && SafeNext(d, e)
    ensures Leads(SafeNext, a, e)
  {
    LeadsOn(SafeNext, a, b, c);
    LeadsOn(SafeNext, a, c, d);
    LeadsOn(SafeNext, a, d, e);
  }

  /** From every state in which put is about to write into a full array, the owner's own next
      steps lose the oldest item: it finishes the put and takes the new item back. */
  lemma FullWriteLoses(s: State, s': State) returns (e: State)
    requires Inv(s) && s.o.PutWrite? && OwnerStep(s, s') && !WriteIsSafe(s)
    ensures Leads(SafeNext, s', e) && Shaped(e) && Lo(e) <= Hi(e) && e.o == Rest && !Conserved(e)
  {
    var ca, k := Items(s)[0] + 1, Slot(s.g.tail, s.g.mask);
    TakesBackLeads(s, s', ca);
    e := After(s, Rest, s.g.tail, s.slots[k := s.o.x][k := ca], true, true);
    OldestReplaced(s, ca, e);
  }

  /** In the end the oldest item has given way to what the owner passed to try_take. */
  lemma OldestReplaced(s: State, ca: Item, e: State)
    requires Inv(s) && s.o.PutWrite? && !WriteIsSafe(s) && ca != Items(s)[0]
    requires var k := Slot(s.g.tail, s.g.mask); e == After(s, Rest, s.g.tail, s.slots[k := s.o.x][k := ca], true, true)
    ensures Shaped(e) && Lo(e) <= Hi(e) && Items(e) == Items(s)[0 := ca] && !Conserved(e)
  {
    var k := Slot(s.g.tail, s.g.mask);
    assert s.slots[k := s.o.x][k := ca] == s.slots[k := ca];
    assert Active(e) == Active(s);
    WriteOverOldest(s, ca, e);
    ReplacedLoses(Items(s), ca, s.puts, s.outs, multiset{s.o.x});
  }

  lemma ReplacedLoses(items: seq<Item>, ca: Item, puts: multiset<Item>, outs: multiset<Item>, x: multiset<Item>)
    requires |items| > 0 && ca != items[0] && puts == outs + multiset(items)
    ensures puts + x != outs + x + multiset(items[0 := ca])
  {
    assert items == [items[0]] + items[1..] && items[0 := ca] == [ca] + items[1..];
    assert (puts + x)[ca] == (outs + x)[ca] + multiset(items[1..])[ca];
    assert multiset(items[0 := ca])[ca] == multiset(items[1..])[ca] + 1;
  }

  /** The test of put takes the fast path in a full array exactly when a thief has
      tentatively advanced head_idx_. */
  lemma FullFastPathIff(s: State, s': State)
    requires Inv(s) && s.o.PutTest? && OwnerStep(s, s')
    ensures s'.o.PutWrite? && !WriteIsSafe(s') <==> Hi(s) - Lo(s) == s.g.mask + 1 && Tentative(Active(s))
  {
    OwnerLocks(s, s');
  }

  /** Fewer items than slots. */
  predicate Room(s: State) { Hi(s) - Lo(s) < s.g.mask + 1 }

  /** Before a put has written anything. */
  predicate BeforeWrite(o: OwnerPC) { o.Rest? || o.PutTest? || o.PutWrite? }

  /** A put that finds room never loses it: only the owner adds items, so up to the write the
      deque can only get emptier. */
  lemma RoomStays(s: State, s': State)
    requires Inv(s) && Next(s, s') && Room(s) && BeforeWrite(s.o) && BeforeWrite(s'.o)
    ensures SafeNext(s, s') && Room(s')
  {
    if OwnerStep(s, s') {
      OwnerLocks(s, s');
    } else {
      var i: nat :| ThiefStep(s, i, s');
      ThiefControl(s, i, s');
    }
  }

  /** A step up to the write of a put: the owner does not go past it, thieves do what they like. */
  ghost predicate Begins(s: State, s': State) { Next(s, s') && BeforeWrite(s'.o) }

  /** A put that is called with room finds room at its write, whatever the thieves do in between. */
  lemma RoomLeads(s: State, w: State)
    requires Inv(s) && BeforeWrite(s.o) && Room(s) && Leads(Begins, s, w)
    ensures Inv(w) && Room(w) && WriteIsSafe(w)
  {
    var roomy := (a: State) => Inv(a) && BeforeWrite(a.o) && Room(a);
    forall a, b | roomy(a) && Begins(a, b) ensures roomy(b) {
      RoomStays(a, b);
      SafeInv(a, b);
    }
    LeadsKeeps(Begins, roomy, s, w);
  }

  /** The test that put ought to make: strictly less, so that a tentative head_idx_ cannot
      make a full array look as if it had room. */
  predicate StrictTest(s: State) { s.g.tail < s.g.head + s.g.mask }

  /** If the strict test holds when put is called, its write finds room. */
  lemma StrictTestSafe(s: State, w: State)
    requires Inv(s) && s.o == Rest && StrictTest(s) && Leads(Begins, s, w)
    ensures Inv(w) && Room(w) && WriteIsSafe(w)
  {
    RoomLeads(s, w);
  }

  lemma AloneStep(s: State, s': State)
    requires Inv(s) && |s.th| == 0 && BeforeWrite(s.o) && WriteIsSafe(s) && Begins(s, s')
    ensures Inv(s') && |s'.th| == 0 && WriteIsSafe(s')
  {
    SafeInv(s, s');
    if s'.o.PutWrite? && s.o.PutTest? { FullFastPathIff(s, s'); }
  }

  /** Without a thief no put takes the fast path in a full array. */
  lemma AloneLeads(s: State, w: State)
    requires Inv(s) && s.o == Rest && |s.th| == 0 && Leads(Begins, s, w)
    ensures Inv(w) && WriteIsSafe(w)
  {
    var alone := (a: State) => Inv(a) && |a.th| == 0 && BeforeWrite(a.o) && WriteIsSafe(a);
    forall a, b | alone(a) && Begins(a, b) ensures alone(b) { AloneStep(a, b); }
    LeadsKeeps(Begins, alone, s, w);
  }

  /** How far the thief under way is from having advanced head_idx_. */
  function Ahead(p: ThiefPC): nat {
    match p
    case StealUnlock => 4
    case Away => 3
    case StealLoad => 2
    case StealAdvance(_) => 1
    case _ => 0
  }

  /** What the thief at p does next while it has not advanced head_idx_. */
  function Approach(g: Shared, p: ThiefPC): (Shared, ThiefPC) {
    match p
    case Away => (g.(lock := Thief(0)), StealLoad)
    case StealLoad => (g, StealAdvance(g.head))
    case StealAdvance(head) => (g.(head := head + 1), StealTest(head))
    case _ => (g.(lock := Free), Away)
  }

  lemma ThiefApproaches(s: State) returns (s': State)
    requires Inv(s) && s.o == Rest && !Room(s) && |s.th| > 0 && !Tentative(Active(s))
    ensures Begins(s, s') && Inv(s') && s'.o == Rest && !Room(s') && |s'.th| == |s.th|
    ensures Ahead(Active(s')) < Ahead(Active(s))
  {
    var i := if s.g.lock.Thief? then s.g.lock.i else 0;
    assert s.g.lock == Thief(i) <==> s.th[i] != Away;
    var (g', p') := Approach(s.g, s.th[i]);
    s' := s.(g := g', th := s.th[i := p']);
    assert ThiefStep(s, i, s');
    ThiefKeeps(s, i, s');
    ThiefControl(s, i, s');
    ThiefLocks(s, i, s');
  }

  /** A full array with a thief about: the thief can advance head_idx_. */
  lemma {:induction false} ThiefTentative(s: State) returns (s': State)
    requires Inv(s) && s.o == Rest && !Room(s) && |s.th| > 0
    ensures Leads(Begins, s, s') && Inv(s') && s'.o == Rest && !Room(s') && Tentative(Active(s'))
    decreases Ahead(Active(s))
  {
    LeadsNowhere(Begins, s);
    if Tentative(Active(s)) {
      s' := s;
    } else {
      var a := ThiefApproaches(s);
      LeadsOn(Begins, s, s, a);
      s' := ThiefTentative(a);
      LeadsFurther(Begins, s, a, s');
    }
  }

  /** A put called then slips through the fast path. */
  lemma PutSlips(s: State, x: Item) returns (w: State)
    requires Inv(s) && s.o == Rest && !Room(s) && Tentative(Active(s))
    ensures Leads(Begins, s, w) && Inv(w) && w.o == PutWrite(x, s.g.tail) && !WriteIsSafe(w)
  {
    var a := s.(o := PutTest(x, s.g.tail));
    w := s.(o := PutWrite(x, s.g.tail));
    assert OwnerStep(s, a) && OwnerStep(a, w);
    OwnerKeeps(s, a);
    OwnerKeeps(a, w);
    LeadsNowhere(Begins, s);
    LeadsOn(Begins, s, s, a);
    LeadsOn(Begins, s, a, w);
  }

  /** A put of x called in s can go through the fast path so that something is lost: in some
      interleaving with the thieves up to its write, and in some continuation of that. */
  ghost predicate MayLose(s: State, x: Item) {
    exists w, w' ::
      Leads(Begins, s, w) && w.o.PutWrite? && w.o.x == x && OwnerStep(w, w') && !KeepsAll(w')
  }

  lemma FullPutLoses(s: State, x: Item)
    requires Inv(s) && s.o == Rest && !Room(s) && |s.th| > 0
    ensures MayLose(s, x)
  {
    var a := ThiefTentative(s);
    var w := PutSlips(a, x);
    LeadsFurther(Begins, s, a, w);
    var w' := w.(o := PutCount(x), slots := w.slots[Slot(w.o.tail, w.g.mask) := x]);
    assert OwnerStep(w, w');
    FastPutKeepsIff(w, w');
  }

  /** Exactly when put may be called: the call can lose an item, then or later, if and only if
      the array is full when it is made and there is a thief. */
  lemma PutLosesIff(s: State, x: Item)
    requires Inv(s) && s.o == Rest
    ensures MayLose(s, x) <==> !Room(s) && |s.th| > 0
  {
    if !Room(s) && |s.th| > 0 {
      FullPutLoses(s, x);
    } else {
      forall w, w' | Leads(Begins, s, w) && w.o.PutWrite? && OwnerStep(w, w') ensures KeepsAll(w') {
        if Room(s) { RoomLeads(s, w); } else { AloneLeads(s, w); }
        FastPutKeepsIff(w, w');
      }
    }
  }

  // A run that loses an item -----------------------------------------------------------

  ghost function FilledSlots(n: nat): seq<Item> {
    seq(Deque.INITIAL_SIZE, i => if i < n then i else 0)
  }

  /** The items 0 up to n, m altogether, have been put; the only thief is away, and the owner stands at o. */
  ghost function Filled(n: nat, m: multiset<Item>, o: OwnerPC): State {
    State(Shared(Deque.INITIAL_SIZE - 1, 0, n, Free), FilledSlots(n), o, [Away], m, multiset{})
  }

  lemma PutBegins(n: nat, m: multiset<Item>)
    requires n < Deque.INITIAL_SIZE
    ensures Next(Filled(n, m, Rest), Filled(n, m, PutTest(n, n)))
    ensures Next(Filled(n, m, PutTest(n, n)), Filled(n, m, PutWrite(n, n)))
  {
    Deque.InitialSizeIsPow2();
    assert OwnerStep(Filled(n, m, Rest), Filled(n, m, PutTest(n, n)));
    assert OwnerStep(Filled(n, m, PutTest(n, n)), Filled(n, m, PutWrite(n, n)));
  }

  lemma PutFinishes(n: nat, m: multiset<Item>)
    requires n < Deque.INITIAL_SIZE
    ensures Next(Filled(n, m, PutWrite(n, n)), Filled(n, m, PutCount(n)).(slots := FilledSlots(n + 1)))
    ensures Next(Filled(n, m, PutCount(n)).(slots := FilledSlots(n + 1)), Filled(n + 1, m + multiset{n}, Rest))
  {
    Deque.InitialSizeIsPow2();
    SmallSlot(n, Deque.INITIAL_SIZE - 1);
    assert FilledSlots(n + 1) == FilledSlots(n)[n := n];
    assert OwnerStep(Filled(n, m, PutWrite(n, n)), Filled(n, m, PutCount(n)).(slots := FilledSlots(n + 1)));
    assert OwnerStep(Filled(n, m, PutCount(n)).(slots := FilledSlots(n + 1)), Filled(n + 1, m + multiset{n}, Rest));
  }

  /** One more put on top of a run that has put n items. */
  lemma FillOne(n: nat, m: multiset<Item>, tr: seq<State>) returns (tr': seq<State>)
    requires n < Deque.INITIAL_SIZE && Reaches(Init, Next, tr, Filled(n, m, Rest))
    ensures Reaches(Init, Next, tr', Filled(n + 1, m + multiset{n}, Rest))
  {
    var s0, s1, s2, s4 := Filled(n, m, Rest), Filled(n, m, PutTest(n, n)), Filled(n, m, PutWrite(n, n)),
        Filled(n + 1, m + multiset{n}, Rest);
    var s3 := Filled(n, m, PutCount(n)).(slots := FilledSlots(n + 1));
    PutBegins(n, m);
    PutFinishes(n, m);
    tr' := Extend(Init, Next, tr, s0, s1);
    tr' := Extend(Init, Next, tr', s1, s2);
    tr' := Extend(Init, Next, tr', s2, s3);
    tr' := Extend(Init, Next, tr', s3, s4);
  }

  lemma {:induction false} FillRun(n: nat) returns (m: multiset<Item>, tr: seq<State>)
    requires n <= Deque.INITIAL_SIZE
    ensures Reaches(Init, Next, tr, Filled(n, m, Rest)) && (n > 0 ==> 0 in m)
  {
    if n == 0 {
      m, tr := multiset{}, [Filled(0, multiset{}, Rest)];
    } else {
      m, tr := FillRun(n - 1);
      tr := FillOne(n - 1, m, tr);
      m := m + multiset{n - 1};
    }
  }

  /** n items have been put; the owner stands at o, and the thief, at p, holds mtx_ with head_idx_ at `head`. */
  ghost function Robbing(n: nat, m: multiset<Item>, o: OwnerPC, p: ThiefPC, head: nat): State {
    State(Shared(Deque.INITIAL_SIZE - 1, head, n, Thief(0)), FilledSlots(n), o, [p], m, multiset{})
  }

  /** Then item n has been put over item 0, and the slot holds y; outs has been handed out. */
  ghost function Robbed(n: nat, m: multiset<Item>, counted: bool, o: OwnerPC, p: ThiefPC, y: Item,
      outs: multiset<Item>): State {
    State(Shared(Deque.INITIAL_SIZE - 1, 1, if counted then n + 1 else n, Thief(0)), FilledSlots(n)[0 := y], o, [p],
          m + (if counted then multiset{n} else multiset{}), outs)
  }

  lemma ThiefAdvances(n: nat, m: multiset<Item>)
    requires n == Deque.INITIAL_SIZE
    ensures Next(Filled(n, m, Rest), Robbing(n, m, Rest, StealLoad, 0))
    ensures Next(Robbing(n, m, Rest, StealLoad, 0), Robbing(n, m, Rest, StealAdvance(0), 0))
    ensures Next(Robbing(n, m, Rest, StealAdvance(0), 0), Robbing(n, m, Rest, StealTest(0), 1))
  {
    Deque.InitialSizeIsPow2();
    assert ThiefStep(Filled(n, m, Rest), 0, Robbing(n, m, Rest, StealLoad, 0));
    assert ThiefStep(Robbing(n, m, Rest, StealLoad, 0), 0, Robbing(n, m, Rest, StealAdvance(0), 0));
    assert ThiefStep(Robbing(n, m, Rest, StealAdvance(0), 0), 0, Robbing(n, m, Rest, StealTest(0), 1));
  }

  lemma OwnerTests(n: nat, m: multiset<Item>)
    requires n == Deque.INITIAL_SIZE
    ensures Next(Robbing(n, m, Rest, StealTest(0), 1), Robbing(n, m, PutTest(n, n), StealTest(0), 1))
    ensures Next(Robbing(n, m, PutTest(n, n), StealTest(0), 1), Robbing(n, m, PutWrite(n, n), StealTest(0), 1))
  {
    Deque.InitialSizeIsPow2();
    assert OwnerStep(Robbing(n, m, Rest, StealTest(0), 1), Robbing(n, m, PutTest(n, n), StealTest(0), 1));
    assert OwnerStep(Robbing(n, m, PutTest(n, n), StealTest(0), 1), Robbing(n, m, PutWrite(n, n), StealTest(0), 1));
  }

  lemma OwnerOverwrites(n: nat, m: multiset<Item>)
    requires n == Deque.INITIAL_SIZE
    ensures Next(Robbing(n, m, PutWrite(n, n), StealTest(0), 1),
        Robbed(n, m, false, PutCount(n), StealTest(0), n, multiset{}))
  {
    Deque.InitialSizeIsPow2();
    SlotWraps(0, n - 1);
    SmallSlot(0, n - 1);
    assert OwnerStep(Robbing(n, m, PutWrite(n, n), StealTest(0), 1),
        Robbed(n, m, false, PutCount(n), StealTest(0), n, multiset{}));
  }

  lemma OwnerCounts(n: nat, m: multiset<Item>)
    requires n == Deque.INITIAL_SIZE
    ensures Next(Robbed(n, m, false, PutCount(n), StealTest(0), n, multiset{}),
        Robbed(n, m, true, Rest, StealTest(0), n, multiset{}))
  {
    Deque.InitialSizeIsPow2();
    assert OwnerStep(Robbed(n, m, false, PutCount(n), StealTest(0), n, multiset{}),
        Robbed(n, m, true, Rest, StealTest(0), n, multiset{}));
  }

  lemma ThiefGetsNew(n: nat, m: multiset<Item>)
    requires n == Deque.INITIAL_SIZE
    ensures Next(Robbed(n, m, true, Rest, StealTest(0), n, multiset{}),
        Robbed(n, m, true, Rest, StealSwap(0), n, multiset{}))
    ensures Next(Robbed(n, m, true, Rest, StealSwap(0), n, multiset{}),
        Robbed(n, m, true, Rest, StealUnlock, n + 1, multiset{n}))
  {
    Deque.InitialSizeIsPow2();
    SmallSlot(0, n - 1);
    var s8, s9 := Robbed(n, m, true, Rest, StealSwap(0), n, multiset{}),
        Robbed(n, m, true, Rest, StealUnlock, n + 1, multiset{n});
    assert ThiefStep(Robbed(n, m, true, Rest, StealTest(0), n, multiset{}), 0, s8);
    assert s9.slots == s8.slots[0 := n + 1];
    assert Stored(s8, 0, n + 1, s9);
    assert ThiefStep(s8, 0, s9);
  }

  lemma ItemZeroGone(n: nat, m: multiset<Item>)
    requires n == Deque.INITIAL_SIZE && 0 in m
    ensures var s := Robbed(n, m, true, Rest, StealUnlock, n + 1, multiset{n});
            Shaped(s) && Lo(s) <= Hi(s) && 0 in s.puts && 0 !in s.outs && 0 !in Items(s)
  {
    Deque.InitialSizeIsPow2();
    var s := Robbed(n, m, true, Rest, StealUnlock, n + 1, multiset{n});
    assert 0 in s.puts;
    assert |Items(s)| == n;
    forall k | 0 <= k < n ensures Items(s)[k] != 0 {
      if k == n - 1 {
        SlotWraps(0, n - 1);
        SmallSlot(0, n - 1);
      } else {
        SmallSlot(1 + k, n - 1);
      }
    }
  }

  /** With the array full, a thief advances head_idx_, a put slips through the fast path and
      overwrites the oldest item, and the thief gets the new item instead: item 0 was
      put, was handed out to nobody and is nowhere in the deque. */
  lemma FullArrayLosesItem() returns (tr: seq<State>)
    ensures IsRun(Init, Next, tr)
    ensures var s := tr[|tr| - 1];
            && Shaped(s) && Lo(s) <= Hi(s) && s.o == Rest
            && 0 in s.puts && 0 !in s.outs && 0 !in Items(s)
  {
    var n := Deque.INITIAL_SIZE;
    var m;
    m, tr := FillRun(n);
    tr := Rob(n, m, tr);
    ItemZeroGone(n, m);
  }

  lemma Rob(n: nat, m: multiset<Item>, tr: seq<State>) returns (tr': seq<State>)
    requires n == Deque.INITIAL_SIZE && Reaches(Init, Next, tr, Filled(n, m, Rest))
    ensures Reaches(Init, Next, tr', Robbed(n, m, true, Rest, StealUnlock, n + 1, multiset{n}))
  {
    ThiefAdvances(n, m);
    OwnerTests(n, m);
    OwnerOverwrites(n, m);
    OwnerCounts(n, m);
    ThiefGetsNew(n, m);
    var s3, s5 := Robbing(n, m, Rest, StealTest(0), 1), Robbing(n, m, PutWrite(n, n), StealTest(0), 1);
    var s6 := Robbed(n, m, false, PutCount(n), StealTest(0), n, multiset{});
    var s7, s8 := Robbed(n, m, true, Rest, StealTest(0), n, multiset{}),
        Robbed(n, m, true, Rest, StealSwap(0), n, multiset{});
    tr' := Extend(Init, Next, tr, Filled(n, m, Rest), Robbing(n, m, Rest, StealLoad, 0));
    tr' := Extend(Init, Next, tr', Robbing(n, m, Rest, StealLoad, 0), Robbing(n, m, Rest, StealAdvance(0), 0));
    tr' := Extend(Init, Next, tr', Robbing(n, m, Rest, StealAdvance(0), 0), s3);
    tr' := Extend(Init, Next, tr', s3, Robbing(n, m, PutTest(n, n), StealTest(0), 1));
    tr' := Extend(Init, Next, tr', Robbing(n, m, PutTest(n, n), StealTest(0), 1), s5);
    tr' := Extend(Init, Next, tr', s5, s6);
    tr' := Extend(Init, Next, tr', s6, s7);
    tr' := Extend(Init, Next, tr', s7, s8);
    tr' := Extend(Init, Next, tr', s8, Robbed(n, m, true, Rest, StealUnlock, n + 1, multiset{n}));
  }
}
