/** Finite runs of a transition system and the induction over them. */
module Runs {

  /** Neighbouring states of tr are related by next. */
  ghost predicate Chain<S(!new)>(next: (S, S) -> bool, tr: seq<S>) {
    forall i, j {:trigger next(tr[i], tr[j])} :: 0 <= i && j == i + 1 < |tr| ==> next(tr[i], tr[j])
  }

  /** tr starts in an initial state and every next state is reached by a step. */
  ghost predicate IsRun<S(!new)>(init: S -> bool, next: (S, S) -> bool, tr: seq<S>) {
    |tr| > 0 && init(tr[0]) && Chain(next, tr)
  }

  lemma ChainOne<S(!new)>(next: (S, S) -> bool, s: S) returns (c: seq<S>)
    ensures |c| == 1 && c[0] == s && Chain(next, c)
  {
    c := [s];
  }

  lemma ChainPrepend<S(!new)>(next: (S, S) -> bool, s: S, tr: seq<S>) returns (c: seq<S>)
    requires |tr| > 0 && next(s, tr[0]) && Chain(next, tr)
    ensures |c| == |tr| + 1 && c[0] == s && c[|c| - 1] == tr[|tr| - 1] && Chain(next, c)
  {
    c := [s] + tr;
    forall i | 0 <= i < |c| - 1 ensures next(c[i], c[i + 1]) {
      if i > 0 { assert next(tr[i - 1], tr[i - 1 + 1]); }
    }
  }

  lemma ChainJoin<S(!new)>(next: (S, S) -> bool, a: seq<S>, b: seq<S>) returns (c: seq<S>)
    requires |a| > 0 && |b| > 0 && Chain(next, a) && Chain(next, b) && a[|a| - 1] == b[0]
    ensures |c| > 0 && c[0] == a[0] && c[|c| - 1] == b[|b| - 1] && Chain(next, c)
  {
    c := a + b[1..];
    forall i | 0 <= i < |c| - 1 ensures next(c[i], c[i + 1]) {
      if i < |a| - 1 {
        assert next(a[i], a[i + 1]);
      } else {
        assert next(b[i - |a| + 1], b[i - |a| + 1 + 1]);
      }
    }
  }

  /** A chain of steps leads from s to e. */
  ghost predicate Leads<S(!new)>(next: (S, S) -> bool, s: S, e: S) {
    exists tr: seq<S> :: |tr| > 0 && tr[0] == s && tr[|tr| - 1] == e && Chain(next, tr)
  }

  lemma LeadsNowhere<S(!new)>(next: (S, S) -> bool, s: S)
    ensures Leads(next, s, s)
  {
    assert Chain(next, [s]);
  }

  /** One more step. */
  lemma LeadsOn<S(!new)>(next: (S, S) -> bool, s: S, a: S, b: S)
    requires Leads(next, s, a) && next(a, b)
    ensures Leads(next, s, b)
  {
    var tr :| |tr| > 0 && tr[0] == s && tr[|tr| - 1] == a && Chain(next, tr);
    var c := ChainJoin(next, tr, [a, b]);
  }

  lemma LeadsFurther<S(!new)>(next: (S, S) -> bool, a: S, b: S, c: S)
    requires Leads(next, a, b) && Leads(next, b, c)
    ensures Leads(next, a, c)
  {
    var tr :| |tr| > 0 && tr[0] == a && tr[|tr| - 1] == b && Chain(next, tr);
    var tr' :| |tr'| > 0 && tr'[0] == b && tr'[|tr'| - 1] == c && Chain(next, tr');
    var both := ChainJoin(next, tr, tr');
  }

  /** What every step keeps holds wherever a chain of steps leads. */
  lemma LeadsKeeps<S(!new)>(next: (S, S) -> bool, p: S -> bool, s: S, e: S)
    requires p(s) && Leads(next, s, e)
    requires forall a, b :: p(a) && next(a, b) ==> p(b)
    ensures p(e)
  {
    var tr :| |tr| > 0 && tr[0] == s && tr[|tr| - 1] == e && Chain(next, tr);
    ChainKeeps(next, p, tr, |tr| - 1);
  }

  /** tr is a run that ends in s. */
  ghost predicate Reaches<S(!new)>(init: S -> bool, next: (S, S) -> bool, tr: seq<S>, s: S) {
    IsRun(init, next, tr) && tr[|tr| - 1] == s
  }

  lemma Extend<S(!new)>(init: S -> bool, next: (S, S) -> bool, tr: seq<S>, s: S, s': S) returns (tr': seq<S>)
    requires Reaches(init, next, tr, s) && next(s, s')
    ensures Reaches(init, next, tr', s')
  {
    tr' := tr + [s'];
  }

  /** What every step keeps holds all along a chain of steps, once it holds at its start. */
  lemma {:induction false} ChainKeeps<S(!new)>(next: (S, S) -> bool, p: S -> bool, tr: seq<S>, k: nat)
    requires k < |tr| && p(tr[0]) && Chain(next, tr)
    requires forall s, s' :: p(s) && next(s, s') ==> p(s')
    ensures p(tr[k])
  {
    if k > 0 {
      ChainKeeps(next, p, tr, k - 1);
      assert next(tr[k - 1], tr[k - 1 + 1]);
    }
  }

  /** What holds initially and is kept by every step holds all along every run. */
  lemma {:induction false} Always<S(!new)>(init: S -> bool, next: (S, S) -> bool, inv: S -> bool, tr: seq<S>, i: nat)
    requires IsRun(init, next, tr) && i < |tr|
    requires forall s :: init(s) ==> inv(s)
    requires forall s, s' :: inv(s) && next(s, s') ==> inv(s')
    ensures inv(tr[i])
  {
    if i > 0 {
      Always(init, next, inv, tr, i - 1);
      assert next(tr[i - 1], tr[i - 1 + 1]);
    }
  }

  /** Where every state that is not over has a step nearer to the end, a chain of steps leads there. */
  lemma {:induction false} Descend<S(!new)>(next: (S, S) -> bool, good: S -> bool, over: S -> bool, dist: S -> nat,
                                            s: S) returns (tr: seq<S>)
    requires good(s) && forall a :: good(a) && !over(a) ==> exists b :: next(a, b) && good(b) && dist(b) < dist(a)
    ensures |tr| > 0 && tr[0] == s && Chain(next, tr) && |tr| <= dist(s) + 1
    ensures good(tr[|tr| - 1]) && over(tr[|tr| - 1])
    decreases dist(s)
  {
    if over(s) {
      tr := ChainOne(next, s);
    } else {
      var b :| next(s, b) && good(b) && dist(b) < dist(s);
      tr := Descend(next, good, over, dist, b);
      tr := ChainPrepend(next, s, tr);
    }
  }

  /** tr as seen through abs. */
  ghost function Image<S, T>(abs: S -> T, tr: seq<S>): seq<T> { seq(|tr|, i requires 0 <= i < |tr| => abs(tr[i])) }

  /** If every step is a step of the other kind under abs, runs are runs of the other kind. */
  lemma MapRun<S(!new), T(!new)>(init: S -> bool, next: (S, S) -> bool, inv: S -> bool, abs: S -> T, init': T -> bool,
                                 next': (T, T) -> bool, tr: seq<S>)
    requires IsRun(init, next, tr)
    requires forall s :: init(s) ==> inv(s) && init'(abs(s))
    requires forall s, s' :: inv(s) && next(s, s') ==> inv(s') && next'(abs(s), abs(s'))
    ensures IsRun(init', next', Image(abs, tr))
  {
    forall i | 0 <= i < |tr| - 1 ensures next'(abs(tr[i]), abs(tr[i + 1])) {
      Always(init, next, inv, tr, i);
      assert next(tr[i], tr[i + 1]);
    }
  }

  /** What every step from an invariant state keeps, once it holds, holds ever after. */
  lemma {:induction false} Forever<S(!new)>(init: S -> bool, next: (S, S) -> bool, inv: S -> bool, p: S -> bool,
                                            tr: seq<S>, i: nat, j: nat)
    requires IsRun(init, next, tr) && i <= j < |tr| && p(tr[i])
    requires forall s :: init(s) ==> inv(s)
    requires forall s, s' :: inv(s) && next(s, s') ==> inv(s')
    requires forall s, s' :: inv(s) && next(s, s') && p(s) ==> p(s')
    ensures p(tr[j])
  {
    if i < j {
      Forever(init, next, inv, p, tr, i, j - 1);
      Always(init, next, inv, tr, j - 1);
      assert next(tr[j - 1], tr[j - 1 + 1]);
    }
  }

  /** How many of the steps of tr between i and j satisfy rel. */
  ghost function Occurs<S(!new)>(rel: (S, S) -> bool, tr: seq<S>, i: nat, j: nat): nat
    requires i <= j < |tr|
  {
    if i == j then 0 else Occurs(rel, tr, i, j - 1) + if rel(tr[j - 1], tr[j]) then 1 else 0
  }

  lemma OneMore(c: nat, n: nat)
    ensures c * (n + 1) == c * n + c
  {
  }

  /** What is left falls with every move and rises by at most c with every lap: so there are at
      most as many moves as were left at the start, and c more for every lap. */
  lemma {:induction false} Amortised<S(!new)>(next: (S, S) -> bool, inv: S -> bool, moves: (S, S) -> bool,
      lap: (S, S) -> bool, left: S -> nat, c: nat, tr: seq<S>, i: nat, j: nat)
    requires i <= j < |tr| && Chain(next, tr) && inv(tr[i])
    requires forall s, s' :: inv(s) && next(s, s') ==> inv(s')
    requires forall s, s' :: inv(s) && next(s, s') ==>
               left(s') + (if moves(s, s') then 1 else 0) <= left(s) + if lap(s, s') then c else 0
    ensures inv(tr[j])
    ensures Occurs(moves, tr, i, j) + left(tr[j]) <= left(tr[i]) + c * Occurs(lap, tr, i, j)
  {
    if i < j {
      Amortised(next, inv, moves, lap, left, c, tr, i, j - 1);
      assert next(tr[j - 1], tr[j - 1 + 1]);
      OneMore(c, Occurs(lap, tr, i, j - 1));
    }
  }

  /** What is left falls with every move and never rises: so there are at most as many moves as were
      left at the start. */
  lemma {:induction false} Bounded<S(!new)>(next: (S, S) -> bool, inv: S -> bool, moves: (S, S) -> bool, left: S -> nat,
                                            tr: seq<S>, i: nat, j: nat)
    requires i <= j < |tr| && Chain(next, tr) && inv(tr[i])
    requires forall s, s' :: inv(s) && next(s, s') ==>
               inv(s') && left(s') + (if moves(s, s') then 1 else 0) <= left(s)
    ensures inv(tr[j]) && Occurs(moves, tr, i, j) + left(tr[j]) <= left(tr[i])
  {
    if i < j {
      Bounded(next, inv, moves, left, tr, i, j - 1);
      assert next(tr[j - 1], tr[j - 1 + 1]);
    }
  }

  /** inside holds from i up to, not including, j. */
  ghost predicate Throughout<S(!new)>(inside: S -> bool, tr: seq<S>, i: nat, j: nat) {
    j <= |tr| && forall k :: i <= k < j ==> inside(tr[k])
  }

  /** What every step inside keeps holds to the end of the stay; and if n counts the steps
      that satisfy rel, it says how many there were. */
  lemma {:induction false} During<S(!new)>(next: (S, S) -> bool, inside: S -> bool, p: S -> bool, rel: (S, S) -> bool,
                                           n: S -> nat, tr: seq<S>, i: nat, j: nat)
    requires i <= j < |tr| && Chain(next, tr) && Throughout(inside, tr, i, j + 1) && p(tr[i])
    requires forall s, s' :: inside(s) && inside(s') && p(s) && next(s, s') ==>
               p(s') && n(s') == n(s) + if rel(s, s') then 1 else 0
    ensures p(tr[j]) && n(tr[j]) == n(tr[i]) + Occurs(rel, tr, i, j)
  {
    if i < j {
      During(next, inside, p, rel, n, tr, i, j - 1);
      assert next(tr[j - 1], tr[j - 1 + 1]);
    }
  }

  /** A whole call: inside from i up to its last step, which is the one from j - 1 to j. */
  lemma WholeCall<S(!new)>(init: S -> bool, next: (S, S) -> bool, inv: S -> bool, inside: S -> bool, p: S -> bool,
                           rel: (S, S) -> bool, n: S -> nat, tr: seq<S>, i: nat, j: nat)
    requires IsRun(init, next, tr) && i < j < |tr| && Throughout(inside, tr, i, j) && p(tr[i])
    requires forall s :: init(s) ==> inv(s)
    requires forall s, s' :: inv(s) && next(s, s') ==> inv(s')
    requires forall s, s' :: inv(s) && inside(s) && inside(s') && p(s) && next(s, s') ==>
               p(s') && n(s') == n(s) + if rel(s, s') then 1 else 0
    ensures inv(tr[j - 1]) && inside(tr[j - 1]) && p(tr[j - 1]) && next(tr[j - 1], tr[j])
    ensures n(tr[i]) + Occurs(rel, tr, i, j) == n(tr[j - 1]) + if rel(tr[j - 1], tr[j]) then 1 else 0
  {
    var within := (s: S) => inv(s) && inside(s);
    forall k | i <= k < j ensures within(tr[k]) { Always(init, next, inv, tr, k); }
    During(next, within, p, rel, n, tr, i, j - 1);
    assert next(tr[j - 1], tr[j - 1 + 1]);
  }

  /** With every step of the stay n rises by one if up, and falls by one if down. */
  lemma {:induction false} Balance<S(!new)>(next: (S, S) -> bool, inside: S -> bool, p: S -> bool, up: (S, S) -> bool,
      down: (S, S) -> bool, n: S -> nat, tr: seq<S>, i: nat, j: nat)
    requires i <= j < |tr| && Chain(next, tr) && Throughout(inside, tr, i, j + 1) && p(tr[i])
    requires forall s, s' :: inside(s) && inside(s') && p(s) && next(s, s') ==>
               p(s') && n(s') + (if down(s, s') then 1 else 0) == n(s) + if up(s, s') then 1 else 0
    ensures p(tr[j]) && n(tr[j]) + Occurs(down, tr, i, j) == n(tr[i]) + Occurs(up, tr, i, j)
  {
    if i < j {
      Balance(next, inside, p, up, down, n, tr, i, j - 1);
      assert next(tr[j - 1], tr[j - 1 + 1]);
    }
  }

  /** The same of a whole call. */
  lemma WholeBalance<S(!new)>(init: S -> bool, next: (S, S) -> bool, inv: S -> bool, inside: S -> bool, p: S -> bool,
                              up: (S, S) -> bool, down: (S, S) -> bool, n: S -> nat, tr: seq<S>, i: nat, j: nat)
    requires IsRun(init, next, tr) && i < j < |tr| && Throughout(inside, tr, i, j) && p(tr[i])
    requires forall s :: init(s) ==> inv(s)
    requires forall s, s' :: inv(s) && next(s, s') ==> inv(s')
    requires forall s, s' :: inv(s) && inside(s) && inside(s') && p(s) && next(s, s') ==>
               p(s') && n(s') + (if down(s, s') then 1 else 0) == n(s) + if up(s, s') then 1 else 0
    ensures n(tr[j - 1]) + Occurs(down, tr, i, j - 1) == n(tr[i]) + Occurs(up, tr, i, j - 1)
  {
    var within := (s: S) => inv(s) && inside(s);
    forall k | i <= k < j ensures within(tr[k]) { Always(init, next, inv, tr, k); }
    Balance(next, within, p, up, down, n, tr, i, j - 1);
  }

  /** If n counts the steps of any run that satisfy rel, it says how many there were between i and j. */
  lemma CountsAlong<S(!new)>(init: S -> bool, next: (S, S) -> bool, inv: S -> bool, rel: (S, S) -> bool, n: S -> nat,
                             tr: seq<S>, i: nat, j: nat)
    requires IsRun(init, next, tr) && i <= j < |tr|
    requires forall s :: init(s) ==> inv(s)
    requires forall s, s' :: inv(s) && next(s, s') ==> inv(s') && n(s') == n(s) + if rel(s, s') then 1 else 0
    ensures n(tr[j]) == n(tr[i]) + Occurs(rel, tr, i, j)
  {
    forall k | i <= k < j + 1 ensures inv(tr[k]) { Always(init, next, inv, tr, k); }
    During(next, inv, inv, rel, n, tr, i, j);
  }

  lemma {:induction false} OccursNever<S(!new)>(rel: (S, S) -> bool, tr: seq<S>, i: nat, j: nat)
    requires i <= j < |tr| && forall s, s' :: !rel(s, s')
    ensures Occurs(rel, tr, i, j) == 0
  {
    if i < j {
      OccursNever(rel, tr, i, j - 1);
    }
  }

  /** What occurs has an occurrence. */
  lemma {:induction false} OccursSomewhere<S(!new)>(rel: (S, S) -> bool, tr: seq<S>, i: nat, j: nat) returns (k: nat)
    requires i <= j < |tr| && Occurs(rel, tr, i, j) > 0
    ensures i <= k < j && rel(tr[k], tr[k + 1])
  {
    if rel(tr[j - 1], tr[j]) {
      k := j - 1;
    } else {
      k := OccursSomewhere(rel, tr, i, j - 1);
    }
  }

  /** Turn by turn, tr is what the schedule makes of its first state. */
  ghost predicate Follows<S(!new), T(!new)>(turn: (S, T, S) -> bool, schedule: seq<T>, tr: seq<S>) {
    |tr| == |schedule| + 1 && forall k :: 0 <= k < |schedule| ==> turn(tr[k], schedule[k], tr[k + 1])
  }

  /** One more turn. */
  lemma FollowOn<S(!new), T(!new)>(turn: (S, T, S) -> bool, schedule: seq<T>, k: nat, tr: seq<S>, s': S)
    requires k < |schedule| && Follows(turn, schedule[..k], tr) && turn(tr[k], schedule[k], s')
    ensures Follows(turn, schedule[..k + 1], tr + [s'])
  {
    var tr' := tr + [s'];
    forall m | 0 <= m < k + 1 ensures turn(tr'[m], schedule[..k + 1][m], tr'[m + 1]) {
      if m < k { assert turn(tr[m], schedule[..k][m], tr[m + 1]); }
    }
  }

  /** tr without the turns at which nothing changed. */
  ghost function Collapse<S>(tr: seq<S>): seq<S> {
    if |tr| <= 1 then tr
    else
      var n := |tr| - 1;
      if tr[n] == tr[n - 1] then Collapse(tr[..n]) else Collapse(tr[..n]) + [tr[n]]
  }

  /** If every turn is a step or changes nothing, what is left is a run through the same states. */
  lemma {:induction false} CollapseRun<S(!new)>(init: S -> bool, next: (S, S) -> bool, tr: seq<S>)
    requires |tr| > 0 && init(tr[0])
    requires forall k :: 0 <= k < |tr| - 1 ==> tr[k + 1] == tr[k] || next(tr[k], tr[k + 1])
    ensures Reaches(init, next, Collapse(tr), tr[|tr| - 1])
    ensures forall s :: s in tr <==> s in Collapse(tr)
  {
    var n := |tr| - 1;
    if n > 0 {
      CollapseRun(init, next, tr[..n]);
      assert tr == tr[..n] + [tr[n]] && tr[..n][n - 1] == tr[n - 1];
      assert tr[n - 1] in tr[..n];
    }
  }

  /** A schedule whose turns are steps, or change nothing, makes a run. */
  lemma FollowsRun<S(!new), T(!new)>(init: S -> bool, next: (S, S) -> bool, turn: (S, T, S) -> bool,
                                     schedule: seq<T>, tr: seq<S>)
    requires Follows(turn, schedule, tr) && init(tr[0])
    requires forall s, x, s' :: turn(s, x, s') ==> s' == s || next(s, s')
    ensures IsRun(init, next, Collapse(tr)) && forall s :: s in tr <==> s in Collapse(tr)
  {
    forall k | 0 <= k < |tr| - 1 ensures tr[k + 1] == tr[k] || next(tr[k], tr[k + 1]) {
      assert turn(tr[k], schedule[k], tr[k + 1]);
    }
    CollapseRun(init, next, tr);
  }
}
