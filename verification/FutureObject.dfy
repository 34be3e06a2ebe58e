/** The future object with its owner and its waiters (future.hpp) as an object. */
module FutureObject {
  import opened Counting
  import opened Future
  import opened Locks
  import opened Options
  import opened Runs
  import opened SpinMutex

  /** What a task body ends with. */
  datatype Ending = Gives(v: Value) | Throws(e: Error)

  function AsResult(o: Ending): Result {
    match o
    case Gives(v) => Got(v)
    case Throws(e) => Failed(Some(e))
  }

  /** One turn of a schedule: activity t moves. `call` is what it calls when it is outside, or
      else it installs a callback; `outcome` is what the task body returns or throws, `threw`
      tells whether a wait callback throws, and `late` whether a timed wait is over. */
  datatype Turn = Turn(t: Tid, call: PC, outcome: Ending, threw: bool, late: bool)

  /** The activity at p has to lock mtx while somebody owns it. */
  predicate Blocks(g: Shared, p: PC) {
    && g.mtx.By?
    && (|| p.SetLock? || p.DropLock? || p.QuitLock? || p.RunLock? || p.FinLock?
        || p.WaitLock? || p.WaitRelock? || p.Woken?)
  }

  predicate Callable(g: Shared, call: PC) {
    || call.WaitLock?
    || (!g.task && (call.SetLock? || call.DropLock?))
    || (g.task && (call.RunLock? || call.QuitLock?))
  }

  /** The activity at p moves as the turn says where there is a choice. */
  predicate Heeds(g: Shared, p: PC, turn: Turn, p': PC) {
    && (p.Out? ==> p' == if Callable(g, turn.call) then turn.call else Out)
    && (p.Body? ==> p' == FinLock(AsResult(turn.outcome)))
    && (p.Callback? ==> p' == WaitRelock(p.timed, turn.threw))
    && (p.Asleep? ==> p' == Woken(p.timed, p.timed && turn.late))
  }

  /** Activity turn.t has its turn: it makes its next access, or waits for mtx. */
  ghost predicate Turned(s: State, turn: Turn, s': State) {
    && turn.t < |s.pc| == |s'.pc|
    && var p := s.pc[turn.t];
       if Blocks(s.g, p) then s' == s
       else if p.Notify? then NotifyStep(s, turn.t, s')
       else ActStep(s, turn.t, s') && Heeds(s.g, p, turn, s'.pc[turn.t])
  }

  class FutureBase {
    const task: bool
    var callback: bool
    var done: bool
    var started: bool
    var result: Option<Value>
    var exception: Option<Error>
    const mtx: Mutex
    const pc: array<PC>
    ghost var owner: Owner
    ghost var settled: seq<Entry>
    ghost var bodies: nat

    /** The state behind a packaged task or a promise, with n activities that may use it. */
    constructor (packaged: bool, n: nat)
      ensures fresh(Repr()) && Valid() && Init(Current()) && pc.Length == n && task == packaged
    {
      task := packaged;
      callback, done, started, result, exception := false, false, false, None, None;
      mtx := new Mutex();
      pc := new PC[n](_ => Out);
      owner, settled, bodies := Free, [], 0;
    }

    ghost function Repr(): set<object> { {this, mtx, pc} }

    ghost predicate Valid()
      reads this, mtx
    {
      mtx.locked <==> owner.By?
    }

    ghost function Vars(): Shared
      reads this
    {
      Shared(task, callback, done, started, result, exception, owner)
    }

    ghost function Current(): State
      reads Repr()
    {
      State(Vars(), settled, bodies, pc[..])
    }

    method Lock(t: Tid) returns (ok: bool)
      requires Valid()
      modifies mtx, this`owner
      ensures Valid() && ok == (old(owner) == Free) && owner == if ok then By(t) else old(owner)
    {
      ok := mtx.TryLock();
      if ok {
        owner := By(t);
      }
    }

    method GiveUp()
      modifies mtx, this`owner
      ensures Valid() && owner == Free
    {
      mtx.Unlock();
      owner := Free;
    }

    method Begin(p: PC, call: PC) returns (p': PC)
      requires p == Out
      modifies this`callback
      ensures CallStep(old(Vars()), p, Vars(), p') && p' == if Callable(old(Vars()), call) then call else Out
    {
      p' := p;
      if call.WaitLock? || (!task && (call.SetLock? || call.DropLock?)) || (task && (call.RunLock? || call.QuitLock?)) {
        p' := call;
      } else {
        callback := true;
      }
    }

    /** set_value, set_exception, ~promise and owner_destroyed, up to the decision. */
    method Own(t: Tid, p: PC) returns (p': PC)
      requires Valid()
      requires p.SetLock? || p.SetTest? || p.DropLock? || p.DropTest? || p.QuitLock? || p.QuitTest? || p.QuitMark?
      modifies this`started, this`owner, mtx
      ensures Valid()
      ensures if Blocks(old(Vars()), p) then p' == p && Vars() == old(Vars())
              else OwnerStep(old(Vars()), p, t, Vars(), p')
    {
      p' := p;
      match p {
        case SetLock(r) =>
          var ok := Lock(t);
          if ok { p' := SetTest(r); }
        case SetTest(r) =>
          p' := if done then Unlock(AlreadySatisfied) else Store(r, Setter);
        case DropLock =>
          var ok := Lock(t);
          if ok { p' := DropTest; }
        case DropTest =>
          p' := if !done then Store(BROKEN, Dropper) else Unlock(FoundDone);
        case QuitLock =>
          var ok := Lock(t);
          if ok { p' := QuitTest; }
        case QuitTest =>
          p' := if !started then QuitMark else Unlock(FoundStarted);
        case QuitMark =>
          started := true;
          p' := Store(BROKEN, Quitter);
      }
    }

    /** task_base::run; a body that fails throws some exception. */
    method RunTask(t: Tid, p: PC, outcome: Ending) returns (p': PC)
      requires Valid()
      requires p.RunLock? || p.RunTest? || p.RunMark? || p.RunUnlock? || p.Body? || p.FinLock?
      modifies this`started, this`owner, mtx
      ensures Valid()
      ensures if Blocks(old(Vars()), p) then p' == p && Vars() == old(Vars())
              else RunStep(old(Vars()), p, t, Vars(), p')
      ensures p.Body? ==> p' == FinLock(AsResult(outcome))
    {
      p' := p;
      match p {
        case RunLock =>
          var ok := Lock(t);
          if ok { p' := RunTest; }
        case RunTest =>
          p' := if started then Unlock(AlreadyStarted) else RunMark;
        case RunMark =>
          started := true;
          p' := RunUnlock;
        case RunUnlock =>
          GiveUp();
          p' := Body;
        case Body =>
          p' := FinLock(AsResult(outcome));
        case FinLock(r) =>
          var ok := Lock(t);
          if ok { p' := Store(r, Runner); }
      }
    }

    /** Storing the result, setting done, and unlocking. */
    method Finish(p: PC) returns (p': PC)
      requires Valid() && (p.Store? || p.Done? || p.Unlock?)
      modifies this`result, this`exception, this`done, this`owner, mtx
      ensures Valid() && FinishStep(old(Vars()), p, Vars(), p')
    {
      match p {
        case Store(r, who) =>
          match r {
            case Got(v) => result := Some(v);
            case Failed(e) => exception := e;
          }
          p' := Done(who);
        case Done(who) =>
          done := true;
          p' := Notify(who);
        case Unlock(_) =>
          GiveUp();
          p' := Out;
      }
    }

    /** The beginning of wait, get and timed_wait_until: lock mtx, and release it again for the
        callback. */
    method BeginWait(t: Tid, p: PC) returns (p': PC)
      requires Valid() && (p.WaitLock? || p.WaitCheck? || p.WaitRelease?)
      modifies this`owner, mtx
      ensures Valid()
      ensures if Blocks(old(Vars()), p) then p' == p && Vars() == old(Vars())
              else WaitStep(old(Vars()), p, t, Vars(), p')
    {
      p' := p;
      match p {
        case WaitLock(d) =>
          var ok := Lock(t);
          if ok { p' := WaitCheck(d); }
        case WaitCheck(d) =>
          p' := if callback && !done then WaitRelease(d) else WaitTest(d, false);
        case WaitRelease(d) =>
          GiveUp();
          p' := Callback(d);
      }
    }

    /** The callback itself, and locking mtx again. */
    method DoCallback(t: Tid, p: PC, threw: bool) returns (p': PC)
      requires Valid() && (p.Callback? || p.WaitRelock?)
      modifies this`owner, mtx
      ensures Valid()
      ensures if Blocks(old(Vars()), p) then p' == p && Vars() == old(Vars())
              else WaitStep(old(Vars()), p, t, Vars(), p')
      ensures p.Callback? ==> p' == WaitRelock(p.timed, threw)
    {
      p' := p;
      match p {
        case Callback(d) =>
          p' := WaitRelock(d, threw);
        case WaitRelock(d, failed) =>
          var ok := Lock(t);
          if ok { p' := if failed then Unlock(CallbackThrew) else WaitTest(d, false); }
      }
    }

    /** The rest of them: wait until done, and take the outcome. */
    method Await(t: Tid, p: PC, late: bool) returns (p': PC)
      requires Valid() && (p.WaitTest? || p.Asleep? || p.Woken? || p.WaitLeave?)
      modifies this`owner, mtx
      ensures Valid()
      ensures if Blocks(old(Vars()), p) then p' == p && Vars() == old(Vars())
              else WaitStep(old(Vars()), p, t, Vars(), p')
      ensures p.Asleep? ==> p' == Woken(p.timed, p.timed && late)
    {
      p' := p;
      match p {
        case WaitTest(d, expired) =>
          if done {
            p' := WaitLeave;
          } else if expired {
            p' := Unlock(TimedOut);
          } else {
            GiveUp();
            p' := Asleep(d);
          }
        case Asleep(d) =>
          p' := Woken(d, d && late);
        case Woken(d, expired) =>
          var ok := Lock(t);
          if ok { p' := WaitTest(d, expired); }
        case WaitLeave =>
          if exception.Some? {
            p' := Unlock(Ready(Failed(exception)));
          } else if result.Some? {
            p' := Unlock(Ready(Got(result.value)));
          } else {
            p' := Unlock(Ready(Failed(None)));
          }
      }
    }

    /** waiters.notify_all by activity t. */
    method NotifyAll(t: Tid)
      requires t < pc.Length && pc[t].Notify?
      modifies pc
      ensures pc[t] == Unlock(Finished(old(pc[t]).who))
      ensures forall u :: 0 <= u < pc.Length && u != t ==> pc[u] == Awake(old(pc[u]))
    {
      var who := pc[t].who;
      for u := 0 to pc.Length
        invariant forall v :: u <= v < pc.Length ==> pc[v] == old(pc[v])
        invariant forall v :: 0 <= v < u ==> pc[v] == Awake(old(pc[v]))
      {
        pc[u] := Awake(pc[u]);
      }
      pc[t] := Unlock(Finished(who));
    }

    method Move(p: PC, turn: Turn) returns (p': PC)
      requires Valid() && !p.Notify?
      modifies this`callback, this`done, this`started, this`result, this`exception, this`owner, mtx
      ensures Valid()
      ensures if Blocks(old(Vars()), p) then p' == p && Vars() == old(Vars())
              else Act(old(Vars()), p, turn.t, Vars(), p') && Heeds(old(Vars()), p, turn, p')
    {
      if p.Out? {
        p' := Begin(p, turn.call);
      } else if p.SetLock? || p.SetTest? || p.DropLock? || p.DropTest? || p.QuitLock? || p.QuitTest? || p.QuitMark? {
        p' := Own(turn.t, p);
      } else if p.RunLock? || p.RunTest? || p.RunMark? || p.RunUnlock? || p.Body? || p.FinLock? {
        p' := RunTask(turn.t, p, turn.outcome);
      } else if p.Store? || p.Done? || p.Unlock? {
        p' := Finish(p);
      } else if p.WaitTest? || p.Asleep? || p.Woken? || p.WaitLeave? {
        p' := Await(turn.t, p, turn.late);
      } else if p.WaitLock? || p.WaitCheck? || p.WaitRelease? {
        p' := BeginWait(turn.t, p);
      } else {
        p' := DoCallback(turn.t, p, turn.threw);
      }
    }

    /** Activity turn.t moves on by one access, or waits because mtx is taken. */
    method Step(turn: Turn)
      requires Valid() && turn.t < pc.Length
      modifies Repr()
      ensures Valid() && Turned(old(Current()), turn, Current())
    {
      ghost var s := Current();
      var t := turn.t;
      var p := pc[t];
      if p.Notify? {
        NotifyAll(t);
        assert NotifyStep(s, t, Current());
      } else {
        var p' := Move(p, turn);
        pc[t] := p';
        if Blocks(s.g, p) {
          assert pc[..] == s.pc;
        } else {
          settled := Recorded(settled, p);
          bodies := bodies + B(p.RunUnlock?);
          assert ActStep(s, t, Current());
        }
      }
    }

    /** Any schedule drives the object turn by turn, and through a run of the step machine. */
    method Execute(schedule: seq<Turn>) returns (ghost tr: seq<State>)
      requires Valid() && Init(Current()) && forall i :: 0 <= i < |schedule| ==> schedule[i].t < pc.Length
      modifies Repr()
      ensures Follows(Turned, schedule, tr) && tr[0] == old(Current()) && tr[|schedule|] == Current()
      ensures Run(Collapse(tr)) && forall s :: s in tr <==> s in Collapse(tr)
    {
      tr := [Current()];
      for k := 0 to |schedule|
        invariant Valid() && |tr| == k + 1 && tr[0] == old(Current()) && tr[k] == Current()
        invariant forall m :: 0 <= m < k ==> Turned(tr[m], schedule[m], tr[m + 1])
      {
        Step(schedule[k]);
        tr := tr + [Current()];
      }
      TurnsAreSteps();
      FollowsRun(Init, Next, Turned, schedule, tr);
    }
  }

  lemma TurnsAreSteps()
    ensures forall s, x, s' :: Turned(s, x, s') ==> s' == s || Next(s, s')
  {
    forall s, x: Turn, s' | Turned(s, x, s') && s' != s ensures Next(s, s') {
      assert ActStep(s, x.t, s') || NotifyStep(s, x.t, s');
    }
  }
}
