/** The fast semaphore (fast_semaphore.hpp, fast_semaphore.cpp) as an object. The kernel
    semaphore is a counter: a wait on it takes a token, or has to be repeated. */
module SemaphoreObject {
  import opened FastSemaphore
  import opened Options
  import opened Runs

  class KernelSemaphore {
    var tokens: nat

    constructor (count: nat)
      ensures tokens == count
    {
      tokens := count;
    }

    method Post(count: nat)
      modifies this
      ensures tokens == old(tokens) + count
    {
      tokens := tokens + count;
    }

    method TryWait() returns (ok: bool)
      modifies this
      ensures ok == (old(tokens) > 0) && tokens == old(tokens) - if ok then 1 else 0
    {
      ok := tokens > 0;
      if ok {
        tokens := tokens - 1;
      }
    }
  }

  /** One turn of a schedule: thread t moves, or starts `call` if it is idle. */
  datatype Turn = Turn(t: Tid, call: PC)

  class Semaphore {
    const initial: nat
    const spinCount: nat
    var semCount: int
    var semActive: bool
    const sem: KernelSemaphore
    const pc: array<PC>
    ghost var h: History

    /** The semaphore, with n threads that may use it. */
    constructor (count: nat, spins: nat, n: nat)
      ensures fresh(Repr()) && Init(Current()) && pc.Length == n && initial == count
    {
      initial := count;
      spinCount := spins;
      semCount := count;
      semActive := true;
      sem := new KernelSemaphore(count);
      pc := new PC[n](_ => Idle);
      h := History(0, 0, 0, 0, false);
    }

    /** Throws invalid_argument, which is None here, for a negative count. */
    static method Create(count: int, spins: nat, n: nat) returns (s: Option<Semaphore>)
      ensures s.Some? <==> 0 <= count
      ensures s.Some? ==> fresh(s.value.Repr()) && Init(s.value.Current()) && s.value.initial == count
    {
      s := None;
      if 0 <= count {
        var f := new Semaphore(count, spins, n);
        s := Some(f);
      }
    }

    ghost function Repr(): set<object> { {this, sem, pc} }

    ghost function Vars(): Shared
      reads this, sem
    {
      Shared(semCount, semActive, sem.tokens)
    }

    ghost function Current(): State
      reads Repr()
    {
      State(initial, Vars(), pc[..], h)
    }

    /** Starting a call of wait, try_wait, post or deactivate, and returning from try_wait. */
    method Begin(p: PC, call: PC) returns (p': PC)
      requires p.Idle? || p.Answer?
      ensures if p.Idle? && !Callable(call) then p' == p else CallStep(Vars(), p, Vars(), p')
      ensures p.Idle? && Callable(call) ==> p' == Started(call, spinCount)
    {
      if p.Answer? {
        p' := Idle;
      } else if call.SpinTest? {
        p' := SpinTest(spinCount);
      } else if call == TryLoad(Outside) || call == Close || (call.Add? && !call.closing) {
        p' := call;
      } else {
        p' := p;
      }
    }

    method TryWait(p: PC) returns (p': PC)
      requires p.TryLoad? || p.TryActive? || p.TryCas?
      modifies this`semCount
      ensures TryStep(old(Vars()), p, Vars(), p')
    {
      match p {
        case TryLoad(who) =>
          p' := TryActive(who, semCount);
        case TryActive(who, seen) =>
          if !semActive {
            p' := Back(who, false);
          } else if seen > 0 {
            p' := TryCas(who, seen);
          } else {
            p' := Back(who, false);
          }
        case TryCas(who, seen) =>
          if semCount == seen {
            semCount := seen - 1;
            p' := Back(who, true);
          } else {
            p' := TryLoad(who);
          }
      }
    }

    /** wait; a thread that finds no kernel token stays where it is. */
    method Wait(p: PC) returns (p': PC)
      requires p.SpinTest? || p.Subtract? || p.Decide? || p.Block?
      modifies this`semCount, sem
      ensures if p.Block? && old(sem.tokens) == 0 then p' == p
          && Vars() == old(Vars()) else WaitStep(old(Vars()), p, Vars(), p')
    {
      match p {
        case SpinTest(spins) =>
          p' := if 0 < spins then TryLoad(InWait(spins - 1)) else Subtract;
        case Subtract =>
          var was := semCount;
          semCount := semCount - 1;
          p' := if 0 <= was then Idle else Decide;
        case Decide =>
          p' := if !semActive then Idle else Block;
        case Block =>
          var ok := sem.TryWait();
          p' := if ok then Idle else p;
      }
    }

    /** post, and deactivate, which ends in a post. */
    method Post(p: PC) returns (p': PC)
      requires p.Add? || p.Kernel? || p.Close? || p.Measure?
      modifies this`semCount, this`semActive, sem
      ensures PostStep(old(Vars()), p, Vars(), p')
    {
      match p {
        case Add(count, closing) =>
          var was := semCount;
          semCount := semCount + count;
          p' := if was < 0 then Kernel(Min(count, -was), closing) else Idle;
        case Kernel(count, closing) =>
          sem.Post(count);
          p' := Idle;
        case Close =>
          semActive := false;
          p' := Measure;
        case Measure =>
          p' := Add(Abs(semCount), true);
      }
    }

    method Move(p: PC, call: PC) returns (p': PC)
      modifies this`semCount, this`semActive, sem
      ensures if Stays(p, call, old(sem.tokens)) then p' == p && Vars() == old(Vars())
              else Act(old(Vars()), p, Vars(), p')
      ensures p.Idle? && Callable(call) ==> p' == Started(call, spinCount)
    {
      if p.Idle? || p.Answer? {
        p' := Begin(p, call);
      } else if p.TryLoad? || p.TryActive? || p.TryCas? {
        p' := TryWait(p);
      } else if p.SpinTest? || p.Subtract? || p.Decide? || p.Block? {
        p' := Wait(p);
      } else {
        p' := Post(p);
      }
    }

    /** Thread t moves on by one access, or starts `call`; it stays when it is blocked. */
    method Step(t: Tid, call: PC)
      requires t < pc.Length
      modifies this`semCount, this`semActive, this`h, sem, pc
      ensures Turned(spinCount, old(Current()), Turn(t, call), Current())
    {
      ghost var s := Current();
      var p := pc[t];
      var p' := Move(p, call);
      pc[t] := p';
      if Stays(p, call, s.g.kernel) {
        assert pc[..] == s.pc;
      } else {
        h := Record(h, s.g, p);
        assert FastSemaphore.Step(s, t, Current());
      }
    }

    /** Any schedule drives the object turn by turn, and through a run of the step machine. */
    method Execute(schedule: seq<Turn>) returns (ghost tr: seq<State>)
      requires Init(Current()) && forall i :: 0 <= i < |schedule| ==> schedule[i].t < pc.Length
      modifies Repr()
      ensures Follows(Turns(spinCount), schedule, tr) && tr[0] == old(Current()) && tr[|schedule|] == Current()
      ensures Run(Collapse(tr)) && forall s :: s in tr <==> s in Collapse(tr)
    {
      tr := [Current()];
      for k := 0 to |schedule|
        invariant |tr| == k + 1 && tr[0] == old(Current()) && tr[k] == Current()
        invariant forall m :: 0 <= m < k ==> Turned(spinCount, tr[m], schedule[m], tr[m + 1])
      {
        Step(schedule[k].t, schedule[k].call);
        tr := tr + [Current()];
      }
      FollowsRun(Init, Next, Turns(spinCount), schedule, tr);
    }
  }

  /** A call that a thread may start. */
  predicate Callable(call: PC) {
    call.SpinTest? || call == TryLoad(Outside) || call == Close || (call.Add? && !call.closing)
  }

  /** Nothing to start, or no kernel token to take. */
  predicate Stays(p: PC, call: PC, tokens: nat) { (p.Idle? && !Callable(call)) || (p.Block? && tokens == 0) }

  function Started(call: PC, spins: nat): PC { if call.SpinTest? then SpinTest(spins) else call }

  /** Thread turn.t has its turn: it makes its next access, starts its call, or has to wait. */
  ghost predicate Turned(spins: nat, s: State, turn: Turn, s': State) {
    && turn.t < |s.pc| == |s'.pc|
    && var p := s.pc[turn.t];
       if Stays(p, turn.call, s.g.kernel) then s' == s
       else FastSemaphore.Step(s, turn.t, s') && (p.Idle? ==> s'.pc[turn.t] == Started(turn.call, spins))
  }

  ghost function Turns(spins: nat): (State, Turn, State) -> bool { (s, x, s') => Turned(spins, s, x, s') }
}
