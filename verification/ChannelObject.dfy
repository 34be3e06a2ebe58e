/** The bounded channel (bounded_channel.hpp) as an object: a linked list of nodes, two spin
    mutexes, a counter and a state, with the threads that use it. */
module ChannelObject {
  import opened BoundedChannel
  import opened Locks
  import opened Options
  import opened Runs
  import opened SpinMutex

  class Link {
    const id: nat
    var va: Option<Value>
    var next: Link?

    constructor (number: nat)
      ensures id == number && va == None && next == null
    {
      id, va, next := number, None, null;
    }

    ghost function Abs(): Node
      reads this, next
    {
      Node(va, if next == null then None else Some(next.id))
    }
  }

  /** One turn of a schedule: thread t moves, or starts `call` if it is outside. `others` are
      the threads that a notify_one reaches. */
  datatype Turn = Turn(t: Tid, call: PC, others: set<Tid>)

  /** The thread at p needs a mutex that somebody owns; empty_ needs tail_mtx_. */
  predicate Blocks(g: Shared, p: PC) {
    || (g.headMtx.By? && (p.TakeLock? || p.TakeWoken? || p.StopHead?))
    || (g.tailMtx.By? && (|| p.PutLock? || p.PutWoken? || p.StopTail?
                          || p.TakeEmpty? || p.TakeLoopEmpty? || p.TakeGuardEmpty?))
  }

  predicate Callable(call: PC) { call.PutAlloc? || call.TakeLock? || call.StopHead? }

  /** The thread at p cannot move in this turn. */
  predicate Stays(g: Shared, p: PC, turn: Turn) { Blocks(g, p) || (p.Out? && !Callable(turn.call)) }

  /** A notification reaches all it concerns, or of them those in turn.others. */
  ghost predicate Tells(s: State, turn: Turn, s': State)
    requires turn.t < |s.pc| == |s'.pc|
  {
    var p := s.pc[turn.t];
    forall u :: 0 <= u < |s.pc| && u != turn.t ==>
      s'.pc[u] == if ForAll(s.g, p) || u in turn.others then Awake(s.pc[u], ForProducers(p)) else s.pc[u]
  }

  /** Thread turn.t has its turn: it makes its next access, or has to wait. */
  ghost predicate Turned(s: State, turn: Turn, s': State) {
    && turn.t < |s.pc| == |s'.pc|
    && var p := s.pc[turn.t];
       if Stays(s.g, p, turn) then s' == s
       else if Notifies(p) then NotifyStep(s, turn.t, s') && Tells(s, turn, s')
       else ActStep(s, turn.t, s') && (p.Out? ==> s'.pc[turn.t] == turn.call)
  }

  /** The thread at p has its turn and does not notify. */
  ghost predicate Moved(g: Shared, h: Heap, p: PC, turn: Turn, g': Shared, h': Heap, p': PC)
    requires Sound(h)
  {
    && HeapStep(h, p, h')
    && if Stays(g, p, turn) then p' == p && g' == g && h' == h
       else Act(g, h, p, turn.t, g', p') && (p.Out? ==> p' == turn.call)
  }

  lemma AskMoves(g: Shared, h: Heap, p: PC, turn: Turn, g': Shared, h': Heap, p': PC)
    requires Sound(h) && Asks(p) && HeapStep(h, p, h')
    requires if Blocks(g, p) then p' == p && g' == g else AskStep(g, |h.nodes|, p, turn.t, g', p')
    ensures Moved(g, h, p, turn, g', h', p')
  {
  }

  lemma EnterMoves(g: Shared, h: Heap, p: PC, turn: Turn, g': Shared, p': PC)
    requires Sound(h) && Enters(p)
    requires if Blocks(g, p) then p' == p && g' == g else EnterStep(g, h.head == h.tail, p, turn.t, g', p')
    ensures Moved(g, h, p, turn, g', h, p')
  {
  }

  lemma StoreMoves(g: Shared, h: Heap, p: PC, turn: Turn, g': Shared, h': Heap, p': PC)
    requires Sound(h) && HeapStep(h, p, h') && StoreStep(g, p, g', p')
    ensures Moved(g, h, p, turn, g', h', p')
  {
  }

  lemma LeaveMoves(g: Shared, h: Heap, p: PC, turn: Turn, g': Shared, h': Heap, p': PC)
    requires Sound(h) && HeapStep(h, p, h') && LeaveStep(g, Front(h), p, g', p')
    ensures Moved(g, h, p, turn, g', h', p')
  {
  }

  lemma StopMoves(g: Shared, h: Heap, p: PC, turn: Turn, g': Shared, p': PC)
    requires Sound(h) && Stops(p)
    requires if Blocks(g, p) then p' == p && g' == g else StopStep(g, p, turn.t, g', p')
    ensures Moved(g, h, p, turn, g', h, p')
  {
  }

  class Channel {
    const hwm: nat
    const lwm: nat
    var active: bool
    var count: int
    var head: Link
    var tail: Link
    const headMtx: Mutex
    const tailMtx: Mutex
    /** All nodes allocated, by number; new_node of a thread in put is nodes[n]. */
    var nodes: seq<Link>
    const pc: array<PC>
    ghost var len: int
    ghost var headOwner: Owner
    ghost var tailOwner: Owner
    ghost var heap: Heap

    constructor (high: nat, low: nat, n: nat)
      requires low <= high
      ensures fresh(Repr()) && Valid() && Init(Current()) && pc.Length == n
    {
      hwm, lwm, active, count, len := high, low, true, 0, 0;
      var l := new Link(0);
      head, tail, nodes := l, l, [l];
      headMtx := new Mutex();
      tailMtx := new Mutex();
      pc := new PC[n](_ => Out);
      headOwner, tailOwner, heap := Free, Free, Heap([BLANK], 0, 0, [0], [], []);
    }

    /** Throws invalid_watermark, which is None here, when the watermarks are crossed. */
    static method Create(high: nat, low: nat, n: nat) returns (c: Option<Channel>)
      ensures c.Some? <==> low <= high
      ensures c.Some? ==> fresh(c.value.Repr()) && c.value.Valid() && Init(c.value.Current()) && c.value.pc.Length == n
    {
      c := None;
      if low <= high {
        var ch := new Channel(high, low, n);
        c := Some(ch);
      }
    }

    ghost function Repr(): set<object>
      reads this
    {
      {this, headMtx, tailMtx, pc} + set l <- nodes
    }

    ghost predicate Known(l: Link)
      reads this`nodes
    {
      l.id < |nodes| && nodes[l.id] == l
    }

    /** The mutexes are taken exactly while somebody owns them. */
    ghost predicate Guarded()
      reads this`headOwner, this`tailOwner, headMtx, tailMtx
    {
      headMtx != tailMtx && (headMtx.locked <==> headOwner.By?) && (tailMtx.locked <==> tailOwner.By?)
    }

    /** heap describes the nodes. */
    ghost predicate Shown()
      reads this`nodes, this`head, this`tail, this`heap, nodes
    {
      && (forall i :: 0 <= i < |nodes| ==> nodes[i].id == i && (nodes[i].next != null ==> Known(nodes[i].next)))
      && Known(head) && Known(tail)
      && heap.head == head.id && heap.tail == tail.id && heap.chain != []
      && |heap.nodes| == |nodes|
      && (forall i :: 0 <= i < |nodes| ==> heap.nodes[i] == nodes[i].Abs())
    }

    ghost predicate Valid()
      reads this, headMtx, tailMtx, nodes
    {
      Guarded() && Shown()
    }

    ghost function Vars(): Shared
      reads this`active, this`count, this`len, this`headOwner, this`tailOwner
    {
      Shared(hwm, lwm, active, count, len, headOwner, tailOwner)
    }

    ghost function Current(): State
      reads this, pc
    {
      State(Vars(), heap, pc[..])
    }

    method LockHead(t: Tid) returns (ok: bool)
      requires Guarded()
      modifies headMtx, this`headOwner
      ensures Guarded() && ok == (old(headOwner) == Free) && headOwner == if ok then By(t) else old(headOwner)
    {
      ok := headMtx.TryLock();
      if ok { headOwner := By(t); }
    }

    method UnlockHead()
      requires Guarded()
      modifies headMtx, this`headOwner
      ensures Guarded() && headOwner == Free
    {
      headMtx.Unlock();
      headOwner := Free;
    }

    method LockTail(t: Tid) returns (ok: bool)
      requires Guarded()
      modifies tailMtx, this`tailOwner
      ensures Guarded() && ok == (old(tailOwner) == Free) && tailOwner == if ok then By(t) else old(tailOwner)
    {
      ok := tailMtx.TryLock();
      if ok { tailOwner := By(t); }
    }

    method UnlockTail()
      requires Guarded()
      modifies tailMtx, this`tailOwner
      ensures Guarded() && tailOwner == Free
    {
      tailMtx.Unlock();
      tailOwner := Free;
    }

    method Allocate() returns (n: nat)
      requires Shown()
      modifies this`nodes, this`heap
      ensures Shown() && n == |old(nodes)| && |nodes| == n + 1 && nodes[..n] == old(nodes) && fresh(nodes[n])
      ensures heap == old(heap).(nodes := old(heap).nodes + [BLANK])
    {
      var l := new Link(|nodes|);
      n := |nodes|;
      nodes := nodes + [l];
      heap := heap.(nodes := heap.nodes + [BLANK]);
    }

    method WriteValue(x: Value)
      requires Shown()
      modifies this`heap, tail
      ensures Shown() && HeapStep(old(heap), PutValue(x, 0), heap)
    {
      tail.va := Some(x);
      heap := heap.(nodes := heap.nodes[heap.tail := heap.nodes[heap.tail].(va := Some(x))]);
    }

    method WriteNext(n: nat)
      requires Shown() && n < |nodes|
      modifies this`heap, tail
      ensures Shown() && HeapStep(old(heap), PutLink(0, n), heap)
    {
      tail.next := nodes[n];
      heap := heap.(nodes := heap.nodes[heap.tail := heap.nodes[heap.tail].(next := Some(n))]);
    }

    method MoveTail(x: Value, n: nat)
      requires Shown() && n < |nodes|
      modifies this`heap, this`tail
      ensures Shown() && HeapStep(old(heap), PutMove(x, n), heap)
    {
      tail := nodes[n];
      heap := heap.(tail := n, chain := heap.chain + [n], accepted := heap.accepted + [x]);
    }

    method SwapHead() returns (va: Option<Value>)
      requires Shown()
      modifies this`heap, head
      ensures Shown() && HeapStep(old(heap), TakeSwap, heap) && va == Front(old(heap))
    {
      va := head.va;
      head.va := None;
      ghost var h := heap;
      heap := heap.(nodes := heap.nodes[heap.head := heap.nodes[heap.head].(va := None)]);
      assert heap == h.(nodes := h.nodes[h.head := h.nodes[h.head].(va := None)]);
    }

    method PopHead(va: Option<Value>)
      requires Shown() && head.next != null && |heap.chain| > 1
      modifies this`heap, this`head
      ensures Shown() && HeapStep(old(heap), TakePop(va), heap)
    {
      head := head.next;
      heap := heap.(head := heap.nodes[heap.head].next.value, chain := heap.chain[1..],
                    taken := heap.taken + if va.Some? then [va.value] else []);
    }

    /** The fresh node of put. */
    method Prepare(t: Tid, p: PC) returns (p': PC)
      requires Shown() && p.PutAlloc?
      modifies this`nodes, this`heap
      ensures Shown() && fresh(Repr() - old(Repr())) && HeapStep(old(heap), p, heap)
      ensures AskStep(Vars(), |old(heap).nodes|, p, t, Vars(), p')
    {
      var n := Allocate();
      p' := PutLock(p.x, n);
    }

    /** put up to the decision, where it only reads, or wakes up. */
    method Decide(ghost t: Tid, p: PC, ghost node: nat) returns (p': PC)
      requires p.PutFull? || p.PutLoopActive? || p.PutLoopFull? || p.PutAsleep? || p.PutActive?
      ensures AskStep(Vars(), node, p, t, Vars(), p')
    {
      match p {
        case PutFull(x, n) =>
          p' := if count >= hwm then PutLoopActive(x, n) else PutActive(x, n);
        case PutLoopActive(x, n) =>
          p' := if active then PutLoopFull(x, n) else PutActive(x, n);
        case PutLoopFull(x, n) =>
          p' := if count >= hwm then PutSleep(x, n) else PutActive(x, n);
        case PutAsleep(x, n) =>
          p' := PutWoken(x, n);
        case PutActive(x, n) =>
          p' := if !active then PutReject else PutValue(x, n);
      }
    }

    /** put up to the decision, where it locks or unlocks tail_mtx_. */
    method Ask(t: Tid, p: PC, ghost node: nat) returns (p': PC)
      requires Guarded() && (p.PutLock? || p.PutSleep? || p.PutWoken? || p.PutReject?)
      modifies this`tailOwner, tailMtx
      ensures Guarded()
      ensures if Blocks(old(Vars()), p) then p' == p && Vars() == old(Vars())
              else AskStep(old(Vars()), node, p, t, Vars(), p')
    {
      p' := p;
      match p {
        case PutLock(x, n) =>
          var ok := LockTail(t);
          if ok { p' := PutFull(x, n); }
        case PutSleep(x, n) =>
          UnlockTail();
          p' := PutAsleep(x, n);
        case PutWoken(x, n) =>
          var ok := LockTail(t);
          if ok { p' := PutLoopActive(x, n); }
        case PutReject =>
          UnlockTail();
          p' := Out;
      }
    }

    /** Linking the value in. */
    method Append(p: PC) returns (p': PC)
      requires Shown() && (p.PutValue? || p.PutLink? || p.PutMove?)
      requires p.PutLink? || p.PutMove? ==> p.n < |nodes|
      modifies this`tail, this`len, this`heap, tail
      ensures Shown() && HeapStep(old(heap), p, heap) && StoreStep(old(Vars()), p, Vars(), p')
    {
      match p {
        case PutValue(x, n) =>
          WriteValue(x);
          p' := PutLink(x, n);
        case PutLink(x, n) =>
          WriteNext(n);
          p' := PutMove(x, n);
        case PutMove(x, n) =>
          MoveTail(x, n);
          len := len + 1;
          p' := PutCount;
      }
    }

    /** Counting it and leaving put. */
    method Publish(p: PC) returns (p': PC)
      requires Guarded() && (p.PutCount? || p.PutUnlock?)
      modifies this`count, this`tailOwner, tailMtx
      ensures Guarded() && StoreStep(old(Vars()), p, Vars(), p')
    {
      match p {
        case PutCount =>
          count := count + 1;
          p' := PutUnlock;
        case PutUnlock =>
          UnlockTail();
          p' := PutNotify;
      }
    }

    /** take and try_take up to the decision, where they ask empty_, which sees `empty` now. */
    method Peek(ghost t: Tid, p: PC, empty: bool) returns (p': PC)
      requires Guarded() && Peeks(p)
      ensures if Blocks(Vars(), p) then p' == p else EnterStep(Vars(), empty, p, t, Vars(), p')
    {
      p' := p;
      if !tailMtx.locked {
        match p {
          case TakeEmpty(once) =>
            p' := if !once then TakeCheck(empty) else if empty then TakeFail(true) else TakeSwap;
          case TakeLoopEmpty =>
            p' := if empty then TakeSleep else TakeGuardActive;
          case TakeGuardEmpty =>
            p' := if empty then TakeFail(false) else TakeSwap;
        }
      }
    }

    /** take and try_take up to the decision, where they do not. */
    method Enter(t: Tid, p: PC, ghost empty: bool) returns (p': PC)
      requires Guarded() && Enters(p) && !Peeks(p)
      modifies this`headOwner, headMtx
      ensures Guarded()
      ensures if Blocks(old(Vars()), p) then p' == p && Vars() == old(Vars())
              else EnterStep(old(Vars()), empty, p, t, Vars(), p')
    {
      p' := p;
      match p {
        case TakeLock(once) =>
          var ok := LockHead(t);
          if ok { p' := TakeEmpty(once); }
        case TakeCheck(e) =>
          p' := if !active && e then TakeFail(false) else if e then TakeLoopActive else TakeGuardActive;
        case TakeLoopActive =>
          p' := if active then TakeLoopEmpty else TakeGuardActive;
        case TakeSleep =>
          UnlockHead();
          p' := TakeAsleep;
        case TakeAsleep =>
          p' := TakeWoken;
        case TakeWoken =>
          var ok := LockHead(t);
          if ok { p' := TakeLoopActive; }
        case TakeGuardActive =>
          p' := if !active then TakeGuardEmpty else TakeSwap;
      }
    }

    /** Taking the value out of the list. */
    method Remove(p: PC) returns (p': PC)
      requires Shown() && (p.TakeSwap? || p.TakePop?)
      requires p.TakePop? ==> head.next != null && |heap.chain| > 1
      modifies this`head, this`len, this`heap, head
      ensures Shown() && HeapStep(old(heap), p, heap) && LeaveStep(old(Vars()), Front(old(heap)), p, Vars(), p')
    {
      match p {
        case TakeSwap =>
          var va := SwapHead();
          p' := TakePop(va);
        case TakePop(va) =>
          PopHead(va);
          len := len - 1;
          p' := TakeSub(va);
      }
    }

    /** Counting it off and leaving take or try_take. */
    method Release(p: PC, ghost va: Option<Value>) returns (p': PC)
      requires Guarded() && (p.TakeSub? || p.TakeSize? || p.TakeUnlock? || p.TakeFail?)
      modifies this`count, this`headOwner, headMtx
      ensures Guarded() && LeaveStep(old(Vars()), va, p, Vars(), p')
    {
      match p {
        case TakeSub(v) =>
          count := count - 1;
          p' := TakeSize(v);
        case TakeSize(v) =>
          p' := if count <= lwm then TakeNotify(v) else TakeUnlock(v);
        case TakeUnlock(v) =>
          UnlockHead();
          p' := Out;
        case TakeFail(once) =>
          UnlockHead();
          p' := Out;
      }
    }

    method Stop(t: Tid, p: PC) returns (p': PC)
      requires Guarded() && (p.StopHead? || p.StopTail? || p.StopStore? || p.StopUnlockTail? || p.StopUnlockHead?)
      modifies this`active, this`headOwner, this`tailOwner, headMtx, tailMtx
      ensures Guarded()
      ensures if Blocks(old(Vars()), p) then p' == p && Vars() == old(Vars())
              else StopStep(old(Vars()), p, t, Vars(), p')
    {
      p' := p;
      match p {
        case StopHead =>
          var ok := LockHead(t);
          if ok { p' := StopTail; }
        case StopTail =>
          var ok := LockTail(t);
          if ok { p' := StopNotEmpty; }
        case StopStore =>
          active := false;
          p' := StopUnlockTail;
        case StopUnlockTail =>
          UnlockTail();
          p' := StopUnlockHead;
        case StopUnlockHead =>
          UnlockHead();
          p' := Out;
      }
    }

    method Begin(p: PC, call: PC) returns (p': PC)
      requires p == Out
      ensures if Callable(call) then CallStep(Vars(), p, Vars(), p') && p' == call else p' == p
    {
      p' := if call.PutAlloc? || call.TakeLock? || call.StopHead? then call else p;
    }

    /** Thread t notifies: everybody whom notify_all concerns, or those of them in others. */
    method Tell(t: Tid, others: set<Tid>)
      requires t < pc.Length && Notifies(pc[t])
      modifies pc
      ensures NotifyTurn(old(pc[t]), pc[t])
      ensures Wakes(old(Current()), t, ForProducers(old(pc[t])), ForAll(Vars(), old(pc[t])), Current())
      ensures forall u :: 0 <= u < pc.Length && u != t ==>
                pc[u] == if ForAll(Vars(), old(pc[t])) || u in others then Awake(old(pc[u]), ForProducers(old(pc[t])))
                         else old(pc[u])
    {
      var p := pc[t];
      var all := p.StopNotEmpty? || p.StopNotFull? || (p.TakeNotify? && lwm != hwm);
      var producers := p.TakeNotify? || p.StopNotFull?;
      for u := 0 to pc.Length
        invariant forall v :: u <= v < pc.Length ==> pc[v] == old(pc[v])
        invariant forall v :: 0 <= v < u ==>
                    pc[v] == if all || v in others then Awake(old(pc[v]), producers) else old(pc[v])
      {
        if all || u in others {
          pc[u] := Awake(pc[u], producers);
        }
      }
      pc[t] := match p {
        case PutNotify => Out
        case TakeNotify(va) => TakeUnlock(va)
        case StopNotEmpty => StopNotFull
        case _ => StopStore
      };
    }

    /** An access of put that changes no node; h is what the nodes are. */
    method Produce(turn: Turn, p: PC, ghost h: Heap) returns (p': PC)
      requires Guarded() && Sound(h) && !Links(p) && (Asks(p) || p.PutCount? || p.PutUnlock?)
      modifies this`count, this`tailOwner, tailMtx
      ensures Guarded() && Moved(old(Vars()), h, p, turn, Vars(), h, p')
    {
      if p.PutLock? || p.PutSleep? || p.PutWoken? || p.PutReject? {
        p' := Ask(turn.t, p, |h.nodes|);
        AskMoves(old(Vars()), h, p, turn, Vars(), h, p');
      } else if Asks(p) {
        p' := Decide(turn.t, p, |h.nodes|);
        AskMoves(Vars(), h, p, turn, Vars(), h, p');
      } else {
        p' := Publish(p);
        StoreMoves(old(Vars()), h, p, turn, Vars(), h, p');
      }
    }

    /** An access of take or try_take that changes no node; `empty` is what empty_ sees now. */
    method Consume(turn: Turn, p: PC, empty: bool, ghost h: Heap) returns (p': PC)
      requires Guarded() && Sound(h) && empty == (h.head == h.tail) && !Links(p) && (Enters(p) || Takes(p))
      modifies this`count, this`headOwner, headMtx
      ensures Guarded() && Moved(old(Vars()), h, p, turn, Vars(), h, p')
    {
      if Peeks(p) {
        p' := Peek(turn.t, p, empty);
        EnterMoves(Vars(), h, p, turn, Vars(), p');
      } else if Enters(p) {
        p' := Enter(turn.t, p, empty);
        EnterMoves(old(Vars()), h, p, turn, Vars(), p');
      } else {
        p' := Release(p, Front(h));
        LeaveMoves(old(Vars()), h, p, turn, Vars(), h, p');
      }
    }

    /** A call that begins, or an access of deactivate. */
    method Close(turn: Turn, p: PC, ghost h: Heap) returns (p': PC)
      requires Guarded() && Sound(h) && (p.Out? || Stops(p))
      modifies this`active, this`headOwner, this`tailOwner, headMtx, tailMtx
      ensures Guarded() && Moved(old(Vars()), h, p, turn, Vars(), h, p')
    {
      if p.Out? {
        p' := Begin(p, turn.call);
      } else {
        p' := Stop(turn.t, p);
        StopMoves(old(Vars()), h, p, turn, Vars(), p');
      }
    }

    /** An access that changes no node; h is what the nodes are, `empty` what empty_ sees now. */
    method Settle(turn: Turn, p: PC, empty: bool, ghost h: Heap) returns (p': PC)
      requires Guarded() && Sound(h) && empty == (h.head == h.tail) && !Links(p) && !Notifies(p)
      modifies this`active, this`count, this`headOwner, this`tailOwner, headMtx, tailMtx
      ensures Guarded() && Moved(old(Vars()), h, p, turn, Vars(), h, p')
    {
      if Enters(p) || Takes(p) {
        p' := Consume(turn, p, empty, h);
      } else if p.Out? || Stops(p) {
        p' := Close(turn, p, h);
      } else {
        p' := Produce(turn, p, h);
      }
    }

    /** The access of put that allocates a node. */
    method Reserve(turn: Turn, p: PC) returns (p': PC)
      requires Shown() && p.PutAlloc?
      modifies this`nodes, this`heap
      ensures Shown() && fresh(Repr() - old(Repr())) && Moved(old(Vars()), old(heap), p, turn, Vars(), heap, p')
    {
      p' := Prepare(turn.t, p);
      AskMoves(old(Vars()), old(heap), p, turn, Vars(), heap, p');
    }

    /** An access of put that links its value in. */
    method Fill(turn: Turn, p: PC) returns (p': PC)
      requires Shown() && (p.PutValue? || p.PutLink? || p.PutMove?) && (p.PutLink? || p.PutMove? ==> p.n < |nodes|)
      modifies this`tail, this`len, this`heap, tail
      ensures Shown() && Moved(old(Vars()), old(heap), p, turn, Vars(), heap, p')
    {
      p' := Append(p);
      StoreMoves(old(Vars()), old(heap), p, turn, Vars(), heap, p');
    }

    /** An access of take that takes its value out. */
    method Drain(turn: Turn, p: PC) returns (p': PC)
      requires Shown() && (p.TakeSwap? || p.TakePop?) && (p.TakePop? ==> head.next != null && |heap.chain| > 1)
      modifies this`head, this`len, this`heap, head
      ensures Shown() && Moved(old(Vars()), old(heap), p, turn, Vars(), heap, p')
    {
      p' := Remove(p);
      LeaveMoves(old(Vars()), old(heap), p, turn, Vars(), heap, p');
    }

    /** An access that changes the nodes. */
    method Relink(turn: Turn, p: PC) returns (p': PC)
      requires Shown() && Links(p)
      requires (p.PutLink? || p.PutMove? ==> p.n < |nodes|) && (p.TakePop? ==> head.next != null && |heap.chain| > 1)
      modifies this`nodes, this`head, this`tail, this`len, this`heap, head, tail
      ensures Shown() && fresh(Repr() - old(Repr())) && Moved(old(Vars()), old(heap), p, turn, Vars(), heap, p')
    {
      if p.PutAlloc? {
        p' := Reserve(turn, p);
      } else if p.TakeSwap? || p.TakePop? {
        p' := Drain(turn, p);
      } else {
        p' := Fill(turn, p);
      }
    }

    /** Thread turn.t at p moves on by one access other than a notification, or waits because the
        mutex it needs is taken. */
    method Move(turn: Turn, p: PC) returns (p': PC)
      requires Valid() && !Notifies(p)
      requires (p.PutLink? || p.PutMove? ==> p.n < |nodes|) && (p.TakePop? ==> head.next != null && |heap.chain| > 1)
      modifies this, headMtx, tailMtx, head, tail
      ensures Valid() && fresh(Repr() - old(Repr())) && Moved(old(Vars()), old(heap), p, turn, Vars(), heap, p')
    {
      if Links(p) {
        p' := Relink(turn, p);
      } else {
        p' := Settle(turn, p, head == tail, heap);
      }
    }

    /** Thread turn.t does anything but notify. */
    method Advance(turn: Turn)
      requires Valid() && Inv(Current()) && turn.t < pc.Length && !Notifies(pc[turn.t])
      modifies this, pc, headMtx, tailMtx, head, tail
      ensures Valid() && fresh(Repr() - old(Repr()))
      ensures if Stays(old(Vars()), old(pc[turn.t]), turn) then Current() == old(Current())
              else ActStep(old(Current()), turn.t, Current()) && (old(pc[turn.t]).Out? ==> pc[turn.t] == turn.call)
    {
      ghost var s := Current();
      Prepared(turn.t);
      var p := pc[turn.t];
      var p' := Move(turn, p);
      pc[turn.t] := p';
      assert pc[..] == s.pc[turn.t := p'];
    }

    /** Thread turn.t notifies. */
    method Inform(turn: Turn)
      requires Valid() && turn.t < pc.Length && Notifies(pc[turn.t]) && !Stays(Vars(), pc[turn.t], turn)
      modifies pc
      ensures Valid() && Turned(old(Current()), turn, Current())
    {
      Tell(turn.t, turn.others);
    }

    /** Thread turn.t moves on by one access, or waits because the mutex it needs is taken. */
    method Step(turn: Turn)
      requires Valid() && Inv(Current()) && turn.t < pc.Length
      modifies Repr()
      ensures Valid() && fresh(Repr() - old(Repr())) && Turned(old(Current()), turn, Current())
    {
      if Notifies(pc[turn.t]) {
        Inform(turn);
      } else {
        Advance(turn);
      }
    }

    /** What the invariant promises to a producer and to a consumer about to move a pointer. */
    lemma Prepared(t: Tid)
      requires Valid() && Inv(Current()) && t < pc.Length
      ensures pc[t].PutLink? || pc[t].PutMove? ==> pc[t].n < |nodes|
      ensures pc[t].TakePop? ==> head.next != null && |heap.chain| > 1
    {
      assert pc[..][t] == pc[t] && (Mine(pc[t]).Some? ==> Mine(Current().pc[t]) == Mine(pc[t]));
      if pc[t].TakePop? {
        TakerApart(Current(), t);
        assert heap.nodes[head.id] == nodes[head.id].Abs();
      }
    }

    /** The k-th turn of the schedule, on top of tr. */
    method Play(schedule: seq<Turn>, k: nat, ghost tr: seq<State>) returns (ghost tr': seq<State>)
      requires k < |schedule| && schedule[k].t < pc.Length && Valid() && Inv(Current())
      requires Follows(Turned, schedule[..k], tr) && tr[k] == Current()
      modifies Repr()
      ensures Valid() && Inv(Current()) && fresh(Repr() - old(Repr()))
      ensures Follows(Turned, schedule[..k + 1], tr') && tr'[0] == tr[0] && tr'[k + 1] == Current()
    {
      Step(schedule[k]);
      TurnKeeps(tr[k], schedule[k], Current());
      FollowOn(Turned, schedule, k, tr, Current());
      tr' := tr + [Current()];
    }

    /** Any schedule drives the object turn by turn, and through a run of the step machine. */
    method Execute(schedule: seq<Turn>) returns (ghost tr: seq<State>)
      requires Valid() && Init(Current()) && forall i :: 0 <= i < |schedule| ==> schedule[i].t < pc.Length
      modifies Repr()
      ensures Follows(Turned, schedule, tr) && tr[0] == old(Current()) && tr[|schedule|] == Current()
      ensures Run(Collapse(tr)) && forall s :: s in tr <==> s in Collapse(tr)
    {
      tr := [Current()];
      InitInv(Current());
      for k := 0 to |schedule|
        invariant Valid() && Inv(Current()) && fresh(Repr() - old(Repr()))
        invariant Follows(Turned, schedule[..k], tr) && tr[0] == old(Current()) && tr[k] == Current()
      {
        tr := Play(schedule, k, tr);
      }
      assert schedule[..|schedule|] == schedule;
      TurnsRun(schedule, tr);
    }
  }

  lemma TurnIsStep(s: State, turn: Turn, s': State)
    requires Turned(s, turn, s') && s' != s
    ensures Next(s, s')
  {
    assert ActStep(s, turn.t, s') || NotifyStep(s, turn.t, s');
  }

  lemma TurnKeeps(s: State, turn: Turn, s': State)
    requires Inv(s) && Turned(s, turn, s')
    ensures Inv(s')
  {
    if s' != s {
      TurnIsStep(s, turn, s');
      NextInv(s, s');
    }
  }

  lemma TurnsAreSteps()
    ensures forall s, x, s' :: Turned(s, x, s') ==> s' == s || Next(s, s')
  {
    forall s, x: Turn, s' | Turned(s, x, s') && s' != s ensures Next(s, s') {
      TurnIsStep(s, x, s');
    }
  }

  lemma TurnsRun(schedule: seq<Turn>, tr: seq<State>)
    requires Follows(Turned, schedule, tr) && Init(tr[0])
    ensures Run(Collapse(tr)) && forall s :: s in tr <==> s in Collapse(tr)
  {
    TurnsAreSteps();
    FollowsRun(Init, Next, Turned, schedule, tr);
  }

  predicate Asks(p: PC) {
    || p.PutAlloc? || p.PutLock? || p.PutFull? || p.PutLoopActive? || p.PutLoopFull? || p.PutSleep? || p.PutAsleep?
    || p.PutWoken? || p.PutActive? || p.PutReject?
  }

  predicate Enters(p: PC) {
    || p.TakeLock? || p.TakeEmpty? || p.TakeCheck? || p.TakeLoopActive? || p.TakeLoopEmpty? || p.TakeSleep?
    || p.TakeAsleep? || p.TakeWoken? || p.TakeGuardActive? || p.TakeGuardEmpty?
  }

  /** About to ask empty_, which locks tail_mtx_. */
  predicate Peeks(p: PC) { p.TakeEmpty? || p.TakeLoopEmpty? || p.TakeGuardEmpty? }

  predicate Takes(p: PC) { p.TakeSwap? || p.TakePop? || p.TakeSub? || p.TakeSize? || p.TakeUnlock? || p.TakeFail? }

  predicate Stops(p: PC) { p.StopHead? || p.StopTail? || p.StopStore? || p.StopUnlockTail? || p.StopUnlockHead? }

  /** About to allocate, fill or link a node, or to take one out. */
  predicate Links(p: PC) {
    p.PutAlloc? || p.PutValue? || p.PutLink? || p.PutMove? || p.TakeSwap? || p.TakePop?
  }

  predicate Notifies(p: PC) { p.PutNotify? || p.TakeNotify? || p.StopNotEmpty? || p.StopNotFull? }
}
