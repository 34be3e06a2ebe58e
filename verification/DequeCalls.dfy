/** Whole calls of put, try_take and try_steal on the work-stealing deque, however owner and thieves
    interleave, as long as no fast-path put writes into a full array. */
module DequeCalls {
  import opened Counting
  import opened DequeRace
  import opened Masks
  import opened Runs

  lemma Inductive()
    ensures forall s :: Init(s) ==> Inv(s)
    ensures forall s, s' :: Inv(s) && SafeNext(s, s') ==> Inv(s')
  {
    forall s | Init(s) ensures Inv(s) { InitInv(s); }
    forall s, s' | Inv(s) && SafeNext(s, s') ensures Inv(s') { SafeInv(s, s'); }
  }

  // put -------------------------------------------------------------------------------------------

  predicate InPut(o: OwnerPC) {
    || o.PutTest? || o.PutWrite? || o.PutCount? || o.PutLock? || o.PutGrow? || o.PutWriteLocked? || o.PutCountLocked?
    || o.Unlock?
  }

  /** A put of x can stand at o. */
  predicate Given(x: Item, o: OwnerPC) { InPut(o) && (o.Unlock? || o.x == x) }

  /** The owner puts x behind the newest item. */
  ghost predicate Appends(x: Item, s: State, s': State) {
    && s'.o != s.o && Shaped(s) && Shaped(s') && Lo(s) <= Hi(s) && Lo(s') <= Hi(s')
    && s'.puts == s.puts + multiset{x} && Items(s') == Items(s) + [x]
  }

  lemma PutGoes(g: Shared, o: OwnerPC, g': Shared, o': OwnerPC, x: Item)
    requires (PutStep(g, o, g', o') || TakeStep(g, o, g', o')) && Given(x, o)
    ensures if InPut(o') then Given(x, o') else o' == Rest && (o.PutCount? || o.Unlock?)
    ensures Counts(o) ==> o.x == x && o' != o && (o' == Rest || o'.Unlock?)
    ensures !Counts(o) ==> !o'.Unlock? && (o' == Rest ==> o.Unlock?)
  {
  }

  lemma PutAccess(s: State, s': State, x: Item)
    requires Inv(s) && OwnerStep(s, s') && WriteIsSafe(s) && Given(x, s.o)
    ensures if InPut(s'.o) then Given(x, s'.o) else s'.o == Rest
    ensures Counts(s.o) <==> Appends(x, s, s')
    ensures Counts(s.o) ==> s'.o == Rest || s'.o.Unlock?
    ensures !Counts(s.o) ==> !s'.o.Unlock? && (s'.o == Rest ==> s.o.Unlock?)
  {
    PutGoes(s.g, s.o, s'.g, s'.o, x);
    OwnerAppends(s, s', x);
  }

  lemma OwnerAppends(s: State, s': State, x: Item)
    requires Inv(s) && OwnerStep(s, s') && WriteIsSafe(s)
    requires Counts(s.o) ==> s.o.x == x && s'.o != s.o
    ensures Counts(s.o) <==> Appends(x, s, s')
  {
    OwnerKeeps(s, s');
    if !Counts(s.o) { assert s'.puts == s.puts && (s.puts + multiset{x})[x] == s.puts[x] + 1; }
  }

  lemma OwnerMoves(s: State, s': State)
    requires SafeNext(s, s') && s'.o != s.o
    ensures OwnerStep(s, s') && WriteIsSafe(s)
  {
  }

  lemma PutFurther(s: State, s': State, x: Item)
    requires Inv(s) && SafeNext(s, s') && Given(x, s.o) && InPut(s'.o)
    ensures Given(x, s'.o) && B(s'.o.Unlock?) == B(s.o.Unlock?) + B(Appends(x, s, s'))
  {
    if s'.o != s.o {
      OwnerMoves(s, s');
      PutAccess(s, s', x);
    }
  }

  lemma PutReturns(s: State, s': State, x: Item)
    requires Inv(s) && SafeNext(s, s') && Given(x, s.o) && !InPut(s'.o)
    ensures s'.o == Rest && B(s.o.Unlock?) + B(Appends(x, s, s')) == 1
  {
    OwnerMoves(s, s');
    PutAccess(s, s', x);
  }

  /** A call of put that has returned has put the item it was given behind all others, once. */
  lemma PutExact(tr: seq<State>, i: nat, j: nat, x: Item)
    requires SafeRun(tr) && i < j < |tr| && tr[i].o.PutTest? && tr[i].o.x == x
    requires Throughout((s: State) => InPut(s.o), tr, i, j) && !InPut(tr[j].o)
    ensures tr[j].o == Rest && Occurs((s, s') => Appends(x, s, s'), tr, i, j) == 1
  {
    var inside, p := (s: State) => InPut(s.o), (s: State) => Given(x, s.o);
    var appends, has := (s, s') => Appends(x, s, s'), (s: State) => B(s.o.Unlock?);
    Inductive();
    forall s, s' | Inv(s) && inside(s') && p(s) && SafeNext(s, s')
      ensures p(s') && has(s') == has(s) + if appends(s, s') then 1 else 0 {
      PutFurther(s, s', x);
    }
    WholeCall(Init, SafeNext, Inv, inside, p, appends, has, tr, i, j);
    PutReturns(tr[j - 1], tr[j], x);
  }

  // try_take --------------------------------------------------------------------------------------

  predicate InTake(o: OwnerPC) {
    || o.TakeStore? || o.TakeTest? || o.TakeSwap? || o.TakeLock? || o.TakeRetest? || o.TakeSwapLocked? || o.TakeRestore?
    || o.Unlock?
  }

  /** The owner takes the newest item out. */
  ghost predicate Takes(s: State, s': State) {
    && s'.o != s.o && Shaped(s) && Shaped(s') && Lo(s) <= Hi(s) && Lo(s') <= Hi(s')
    && exists x :: s'.outs == s.outs + multiset{x} && Items(s) == Items(s') + [x]
  }

  /** The owner, with mtx_, finds nothing to take. */
  ghost predicate FindsNothing(s: State, s': State) {
    Shaped(s) && Lo(s) <= Hi(s) && !s.o.TakeRestore? && s'.o.TakeRestore? && Items(s) == []
  }

  /** Which of the two it does at this access. */
  ghost predicate Decides(s: State, s': State) { Takes(s, s') || FindsNothing(s, s') }

  lemma TakeAccess(g: Shared, o: OwnerPC, g': Shared, o': OwnerPC)
    requires (PutStep(g, o, g', o') || TakeStep(g, o, g', o')) && InTake(o)
    ensures InTake(o') || (o' == Rest && (o.TakeSwap? || o.Unlock?))
    ensures o.TakeRestore? || o.TakeSwapLocked? <==> o'.Unlock?
    ensures o'.TakeRestore? ==> o.TakeRetest? && g.head > o.tail
  {
  }

  /** What the owner does with the items at an access of try_take. */
  lemma TakeItems(s: State, s': State)
    requires Inv(s) && OwnerStep(s, s') && InTake(s.o)
    ensures Swaps(s.o) ==> Takes(s, s')
    ensures !Swaps(s.o) ==> s'.outs == s.outs
  {
    OwnerKeeps(s, s');
    if Swaps(s.o) {
      assert s'.outs == s.outs + multiset{At(s, s.o.tail)};
      assert Items(s) == Items(s') + [At(s, s.o.tail)];
    }
  }

  lemma NotTaken(s: State, s': State)
    requires s'.outs == s.outs
    ensures !Takes(s, s')
  {
    forall x ensures s.outs + multiset{x} != s.outs {
      assert (s.outs + multiset{x})[x] == s.outs[x] + 1;
    }
  }

  lemma TakeDecides(s: State, s': State)
    requires Inv(s) && OwnerStep(s, s') && InTake(s.o)
    ensures Decides(s, s') <==> Swaps(s.o) || s'.o.TakeRestore?
  {
    TakeItems(s, s');
    TakeAccess(s.g, s.o, s'.g, s'.o);
    if !Swaps(s.o) { NotTaken(s, s'); }
  }

  lemma TakeFurther(s: State, s': State)
    requires Inv(s) && SafeNext(s, s') && InTake(s.o) && InTake(s'.o)
    ensures B(s'.o.TakeRestore? || s'.o.Unlock?) == B(s.o.TakeRestore? || s.o.Unlock?) + B(Decides(s, s'))
  {
    if s'.o != s.o {
      OwnerMoves(s, s');
      TakeAccess(s.g, s.o, s'.g, s'.o);
      TakeDecides(s, s');
    }
  }

  lemma TakeReturns(s: State, s': State)
    requires Inv(s) && SafeNext(s, s') && InTake(s.o) && !InTake(s'.o)
    ensures s'.o == Rest && B(s.o.TakeRestore? || s.o.Unlock?) + B(Decides(s, s')) == 1
  {
    OwnerMoves(s, s');
    TakeAccess(s.g, s.o, s'.g, s'.o);
    TakeDecides(s, s');
  }

  /** A call of try_take that has got past its first test and has returned: it has taken the newest
      item there was then, or found the deque empty, exactly one of the two and once. */
  lemma TakeExact(tr: seq<State>, i: nat, j: nat)
    requires SafeRun(tr) && i < j < |tr| && tr[i].o.TakeStore?
    requires Throughout((s: State) => InTake(s.o), tr, i, j) && !InTake(tr[j].o)
    ensures tr[j].o == Rest && Occurs(Decides, tr, i, j) == 1
  {
    var inside, has := (s: State) => InTake(s.o), (s: State) => B(s.o.TakeRestore? || s.o.Unlock?);
    Inductive();
    forall s, s' | Inv(s) && inside(s) && inside(s') && SafeNext(s, s')
      ensures has(s') == has(s) + if Decides(s, s') then 1 else 0 {
      TakeFurther(s, s');
    }
    WholeCall(Init, SafeNext, Inv, inside, inside, Decides, has, tr, i, j);
    TakeReturns(tr[j - 1], tr[j]);
  }

  /** A try_take that fails at its first test has found the deque empty. */
  lemma TakeTestExact(tr: seq<State>, i: nat)
    requires SafeRun(tr) && i + 1 < |tr| && OwnerStep(tr[i], tr[i + 1]) && tr[i].o == Rest == tr[i + 1].o
    ensures Shaped(tr[i]) && Lo(tr[i]) <= Hi(tr[i]) && Items(tr[i]) == []
  {
    SafeRunInv(tr, i);
  }

  // try_steal -------------------------------------------------------------------------------------

  /** Thief i is in a call and has mtx_. */
  predicate Stealing(i: nat, s: State) { i < |s.th| && s.th[i] != Away }

  /** Thief i takes the oldest item out. */
  ghost predicate Steals(i: nat, s: State, s': State) {
    && i < |s.th| == |s'.th| && s'.th[i] != s.th[i] && Shaped(s) && Shaped(s') && Lo(s) <= Hi(s) && Lo(s') <= Hi(s')
    && exists x :: s'.outs == s.outs + multiset{x} && Items(s) == [x] + Items(s')
  }

  /** Thief i finds no item but, at most, the one the owner is about to take. */
  ghost predicate FindsNone(i: nat, s: State, s': State) {
    && i < |s.th| == |s'.th| && !s.th[i].StealRestore? && s'.th[i].StealRestore? && Shaped(s) && Lo(s) <= Hi(s)
    && |Items(s)| <= if Lowered(s.o) then 1 else 0
  }

  ghost predicate Settles(i: nat, s: State, s': State) { Steals(i, s, s') || FindsNone(i, s, s') }

  predicate PastTest(p: ThiefPC) { p.StealRestore? || p.StealUnlock? }

  lemma StealNotTaken(i: nat, s: State, s': State)
    requires s'.outs == s.outs
    ensures !Steals(i, s, s')
  {
    forall x ensures s.outs + multiset{x} != s.outs {
      assert (s.outs + multiset{x})[x] == s.outs[x] + 1;
    }
  }

  lemma StealAccess(s: State, i: nat, s': State)
    requires Inv(s) && ThiefStep(s, i, s') && Stealing(i, s)
    ensures s.th[i].StealSwap? ==> Steals(i, s, s') && s'.th[i].StealUnlock?
    ensures s'.th[i].StealRestore? ==> FindsNone(i, s, s')
    ensures !s.th[i].StealSwap? && !s'.th[i].StealRestore? ==> !Settles(i, s, s')
    ensures PastTest(s.th[i]) ==> s'.th[i] == Away || s'.th[i].StealUnlock?
    ensures !PastTest(s.th[i]) && PastTest(s'.th[i]) ==> s.th[i].StealSwap? || s'.th[i].StealRestore?
    ensures s'.th[i] == Away ==> s.th[i].StealUnlock?
  {
    ThiefKeeps(s, i, s');
    ThiefControl(s, i, s');
    if s.th[i].StealSwap? {
      assert s'.outs == s.outs + multiset{At(s, s.th[i].head)};
    } else {
      StealNotTaken(i, s, s');
    }
  }

  lemma OwnerAlone(s: State, s': State)
    requires OwnerStep(s, s')
    ensures s'.th == s.th
  {
  }

  lemma OtherThief(s: State, k: nat, s': State, i: nat)
    requires Inv(s) && ThiefStep(s, k, s') && Stealing(i, s)
    ensures k == i
  {
    ThiefLocks(s, k, s');
    assert s.g.lock == Thief(i);
  }

  lemma StealFurther(s: State, s': State, i: nat)
    requires Inv(s) && SafeNext(s, s') && Stealing(i, s)
    ensures i < |s'.th|
    ensures Stealing(i, s') ==> B(PastTest(s'.th[i])) == B(PastTest(s.th[i])) + B(Settles(i, s, s'))
    ensures !Stealing(i, s') ==> PastTest(s.th[i]) && !Settles(i, s, s')
  {
    if OwnerStep(s, s') && WriteIsSafe(s) {
      OwnerAlone(s, s');
    } else {
      var k: nat :| ThiefStep(s, k, s');
      OtherThief(s, k, s', i);
      StealAccess(s, i, s');
    }
  }

  /** A call of try_steal that has got mtx_ and has returned: it has taken the oldest item there was
      then, or found none but one that the owner was about to take, exactly one of the two and once. */
  lemma StealExact(tr: seq<State>, i: nat, j: nat, k: nat)
    requires SafeRun(tr) && i < j < |tr| && k < |tr[i].th| && tr[i].th[k] == StealLoad
    requires Throughout((s: State) => Stealing(k, s), tr, i, j) && !Stealing(k, tr[j])
    ensures Occurs((s, s') => Settles(k, s, s'), tr, i, j) == 1
  {
    var inside, settles := (s: State) => Stealing(k, s), (s, s') => Settles(k, s, s');
    var has := (s: State) => if k < |s.th| then B(PastTest(s.th[k])) else 0;
    Inductive();
    forall s, s' | Inv(s) && inside(s) && inside(s') && SafeNext(s, s')
      ensures has(s') == has(s) + if settles(s, s') then 1 else 0 {
      StealFurther(s, s', k);
    }
    WholeCall(Init, SafeNext, Inv, inside, inside, settles, has, tr, i, j);
    StealFurther(tr[j - 1], tr[j], k);
  }
}
