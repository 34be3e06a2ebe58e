/** The spin condition variable (condition.hpp, condition.cpp) as an object. The methods of
    Cond make the next access of a thread that stands at p inside wait, timed_wait or notify_
    and say where it stands then; every schedule that interleaves such calls is a run of the
    step machine of module Condition. */
module ConditionObject {
  import opened Condition
  import opened Runs
  import opened SpinMutex

  /** The thread at p has to lock a mutex that is taken. */
  predicate Blocks(g: Shared, p: PC) {
    || ((p.Enter? || p.Notify?) && g.enter)
    || (p.Check? && g.check)
    || (p.Relock? && g.caller)
  }

  class Cond {
    var cmd: Command
    var waiters: int
    const enterMtx: Mutex
    const checkMtx: Mutex

    constructor ()
      ensures fresh(enterMtx) && fresh(checkMtx) && enterMtx != checkMtx
      ensures cmd == SLEEPING && waiters == 0 && !enterMtx.locked && !checkMtx.locked
    {
      cmd := SLEEPING;
      waiters := 0;
      enterMtx := new Mutex();
      checkMtx := new Mutex();
    }

    /** The shared variables, with lt the mutex of the callers. */
    ghost function Vars(lt: Mutex): Shared
      reads this, enterMtx, checkMtx, lt
    {
      Shared(cmd, waiters, enterMtx.locked, checkMtx.locked, lt.locked)
    }

    ghost predicate Valid(lt: Mutex) { enterMtx != checkMtx && lt != enterMtx && lt != checkMtx }

    method CompareExchange(expected: Command, desired: Command) returns (seen: Command)
      modifies `cmd
      ensures seen == old(cmd) && cmd == if old(cmd) == expected then desired else old(cmd)
    {
      seen := cmd;
      if cmd == expected {
        cmd := desired;
      }
    }

    /** Registering, and spinning on cmd_. */
    method Await(lt: Mutex, p: PC, timeIsOver: bool) returns (p': PC)
      requires Valid(lt) && (p.Enter? || p.Register? || p.GiveUp? || p.LeaveEntry? || p.Spin? || p.Expired?)
      modifies this`waiters, enterMtx, lt
      ensures if Blocks(old(Vars(lt)), p) then p' == p && Vars(lt) == old(Vars(lt))
              else EntryStep(old(Vars(lt)), p, Vars(lt), p')
      ensures p.Spin? && old(cmd) == SLEEPING ==> p' == if p.timed && timeIsOver then Expired else p
    {
      p' := p;
      match p {
        case Enter(timed) =>
          var ok := enterMtx.TryLock();
          if ok { p' := Register(timed); }
        case Register(timed) =>
          waiters := waiters + 1;
          p' := GiveUp(timed);
        case GiveUp(timed) =>
          lt.Unlock();
          p' := LeaveEntry(timed);
        case LeaveEntry(timed) =>
          enterMtx.Unlock();
          p' := Spin(timed);
        case Spin(timed) =>
          if cmd != SLEEPING {
            p' := Check(timed);
          } else if timed && timeIsOver {
            p' := Expired;
          }
        case Expired =>
          var ok := enterMtx.TryLock();
          p' := if ok then CountExpired else Spin(true);
      }
    }

    /** Taking a command under check_mtx_. */
    method TakeCommand(lt: Mutex, p: PC) returns (p': PC)
      requires Valid(lt) && (p.Check? || p.Consume? || p.Retry? || p.CountOne? || p.CountAll? || p.Reset?)
      modifies this, checkMtx
      ensures if Blocks(old(Vars(lt)), p) then p' == p && Vars(lt) == old(Vars(lt))
              else TakeStep(old(Vars(lt)), p, Vars(lt), p')
    {
      p' := p;
      match p {
        case Check(timed) =>
          var ok := checkMtx.TryLock();
          if ok { p' := Consume(timed); }
        case Consume(timed) =>
          var seen := CompareExchange(NOTIFY_ONE, SLEEPING);
          p' := if seen == SLEEPING then Retry(timed) else if seen == NOTIFY_ONE then CountOne else CountAll;
        case Retry(timed) =>
          checkMtx.Unlock();
          p' := Spin(timed);
        case CountOne =>
          waiters := waiters - 1;
          p' := Leave(true);
        case CountAll =>
          p' := if waiters == 1 then Reset else Leave(false);
          waiters := waiters - 1;
        case Reset =>
          var _ := CompareExchange(NOTIFY_ALL, SLEEPING);
          p' := Leave(true);
      }
    }

    /** Leaving wait or timed_wait. */
    method Depart(lt: Mutex, p: PC) returns (p': PC)
      requires Valid(lt) && (p.Leave? || p.CountExpired? || p.HandBack? || p.Relock?)
      modifies this`waiters, enterMtx, checkMtx, lt
      ensures if Blocks(old(Vars(lt)), p) then p' == p && Vars(lt) == old(Vars(lt))
              else LeaveStep(old(Vars(lt)), p, Vars(lt), p')
    {
      p' := p;
      match p {
        case Leave(unlock) =>
          checkMtx.Unlock();
          p' := if unlock then HandBack(true) else Relock(true);
        case CountExpired =>
          waiters := waiters - 1;
          p' := HandBack(false);
        case HandBack(ok) =>
          enterMtx.Unlock();
          p' := Relock(ok);
        case Relock(ok) =>
          var got := lt.TryLock();
          if got { p' := Held; }
      }
    }

    /** notify_ with the command c; enter_mtx_ stays locked when it returns from Publish. */
    method NotifyWaiters(lt: Mutex, p: PC) returns (p': PC)
      requires Valid(lt) && (p.Notify? || p.Load? || p.Skip? || p.Publish?)
      modifies this`cmd, enterMtx
      ensures if Blocks(old(Vars(lt)), p) then p' == p && Vars(lt) == old(Vars(lt))
              else NotifyStep(old(Vars(lt)), p, Vars(lt), p')
    {
      p' := p;
      match p {
        case Notify(c, held) =>
          var ok := enterMtx.TryLock();
          if ok { p' := Load(c, held); }
        case Load(c, held) =>
          p' := if waiters == 0 then Skip(held) else Publish(c, held);
        case Skip(held) =>
          enterMtx.Unlock();
          p' := Home(held);
        case Publish(c, held) =>
          var seen := CompareExchange(SLEEPING, c);
          if seen == SLEEPING { p' := Home(held); }
      }
    }
  }

  /** One turn of a schedule: thread t moves; outside a call it does `call`, if it can. */
  datatype Turn = Turn(t: Tid, call: PC, timeIsOver: bool)

  predicate Outside(p: PC) { p.Out? || p.Held? }

  /** What a thread outside a call can do: use the mutex, or call wait, timed_wait, notify_one
      or notify_all. */
  predicate Accepts(g: Shared, p: PC, call: PC) {
    || (p.Out? && call.Held? && !g.caller)
    || (p.Held? && (call.Out? || call.Enter?))
    || (Outside(p) && call.Notify? && call.cmd != SLEEPING && call.held == p.Held?)
  }

  /** The thread at p cannot move in this turn. */
  predicate Stays(g: Shared, p: PC, turn: Turn) {
    Blocks(g, p) || (Outside(p) && !Accepts(g, p, turn.call))
  }

  /** It moves as the turn says where there is a choice. */
  predicate Heeds(g: Shared, p: PC, turn: Turn, p': PC) {
    && (Outside(p) ==> p' == turn.call)
    && (p.Spin? && g.cmd == SLEEPING ==> p' == if p.timed && turn.timeIsOver then Expired else p)
  }

  /** Thread turn.t has its turn: it makes its next access, or has to wait. */
  ghost predicate Turned(s: State, turn: Turn, s': State) {
    && turn.t < |s.pc| == |s'.pc|
    && var p := s.pc[turn.t];
       if Stays(s.g, p, turn) then s' == s else Step(s, turn.t, s') && Heeds(s.g, p, turn, s'.pc[turn.t])
  }

  /** Any number of threads on one condition variable and one mutex. */
  class Threads {
    const cond: Cond
    const lt: Mutex
    const pc: array<PC>
    ghost var h: History

    constructor (n: nat)
      ensures Valid() && fresh(Repr()) && Init(Current()) && pc.Length == n
    {
      cond := new Cond();
      lt := new Mutex();
      pc := new PC[n](_ => Out);
      h := History([], 0, 0, 0);
    }

    ghost function Repr(): set<object> { {this, cond, cond.enterMtx, cond.checkMtx, lt, pc} }

    ghost predicate Valid() { cond.Valid(lt) }

    ghost function Current(): State
      reads Repr()
    {
      State(cond.Vars(lt), pc[..], h)
    }

    method Begin(p: PC, call: PC) returns (p': PC)
      requires Valid() && Outside(p)
      modifies lt
      ensures if Accepts(old(cond.Vars(lt)), p, call)
              then CallStep(old(cond.Vars(lt)), p, cond.Vars(lt), p') && p' == call
              else p' == p && cond.Vars(lt) == old(cond.Vars(lt))
    {
      p' := p;
      if p.Out? && call.Held? {
        var ok := lt.TryLock();
        if ok { p' := Held; }
      } else if p.Held? && call.Out? {
        lt.Unlock();
        p' := Out;
      } else if (p.Held? && call.Enter?) || (call.Notify? && call.cmd != SLEEPING && call.held == p.Held?) {
        p' := call;
      }
    }

    method Move(p: PC, turn: Turn) returns (p': PC)
      requires Valid()
      modifies cond, cond.enterMtx, cond.checkMtx, lt
      ensures if Stays(old(cond.Vars(lt)), p, turn) then p' == p && cond.Vars(lt) == old(cond.Vars(lt))
              else Act(old(cond.Vars(lt)), p, cond.Vars(lt), p') && Heeds(old(cond.Vars(lt)), p, turn, p')
    {
      if p.Out? || p.Held? {
        p' := Begin(p, turn.call);
      } else if p.Notify? || p.Load? || p.Skip? || p.Publish? {
        p' := cond.NotifyWaiters(lt, p);
      } else if p.Enter? || InEntry(p) || p.Spin? || p.Expired? {
        p' := cond.Await(lt, p, turn.timeIsOver);
      } else if p.Check? || (InCheck(p) && !p.Leave?) {
        p' := cond.TakeCommand(lt, p);
      } else {
        p' := cond.Depart(lt, p);
      }
    }

    /** Thread turn.t moves on by one access, or waits because a mutex it needs is taken. */
    method Advance(turn: Turn)
      requires Valid() && turn.t < pc.Length
      modifies Repr()
      ensures Turned(old(Current()), turn, Current())
    {
      ghost var s := Current();
      var p := pc[turn.t];
      var p' := Move(p, turn);
      pc[turn.t] := p';
      if Stays(s.g, p, turn) {
        assert pc[..] == s.pc;
      } else {
        h := Record(h, s.g, p, turn.t, Waiters(s));
        assert Step(s, turn.t, Current());
      }
    }

    /** Any schedule drives the object turn by turn, and through a run of the step machine. */
    method Execute(schedule: seq<Turn>) returns (ghost tr: seq<State>)
      requires Valid() && Init(Current()) && forall i :: 0 <= i < |schedule| ==> schedule[i].t < pc.Length
      modifies Repr()
      ensures Follows(Turned, schedule, tr) && tr[0] == old(Current()) && tr[|schedule|] == Current()
      ensures Run(Collapse(tr)) && forall s :: s in tr <==> s in Collapse(tr)
    {
      tr := [Current()];
      for k := 0 to |schedule|
        invariant |tr| == k + 1 && tr[0] == old(Current()) && tr[k] == Current()
        invariant forall m :: 0 <= m < k ==> Turned(tr[m], schedule[m], tr[m + 1])
      {
        Advance(schedule[k]);
        tr := tr + [Current()];
      }
      FollowsRun(Init, Next, Turned, schedule, tr);
    }
  }
}
