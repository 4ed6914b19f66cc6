/** The two machines that run a program line by line: one for lines with labels, as the NOLOL compiler
    handles them between its passes, and the YOLOL virtual machine, where gotos name line numbers. */
module Machine {
  import opened Ast
  import opened Semantics
  import opened Behaviour

  /** Running, with the index of the next line; at rest; or stopped by a runtime error. */
  datatype Conf = Run(pc: nat, st: State) | Halt(st: State) | Crash(st: State)

  function Observe(c: Conf): Obs {
    match c
    case Run(_, s) => Going(s)
    case Halt(s) => Done(s)
    case Crash(s) => Crashed(s)
  }

  // ---- lines with labels ----

  /** The first line at or after position `from` that carries the label `l`. */
  function FindFrom(p: seq<Line>, l: string, from: nat): (r: Option<nat>)
    requires from <= |p|
    ensures r.Some? ==> from <= r.value < |p| && p[r.value].lbl == l
    decreases |p| - from
  {
    if from == |p| then None
    else if p[from].lbl == l then Some(from)
    else FindFrom(p, l, from + 1)
  }

  /** The line a goto to `l` continues at. */
  function Find(p: seq<Line>, l: LabelName): (r: Option<nat>)
    ensures r.Some? ==> r.value < |p| && p[r.value].lbl == l
  {
    FindFrom(p, l, 0)
  }

  lemma {:induction false} FindFromFirst(p: seq<Line>, l: string, from: nat)
    requires from <= |p|
    ensures var r := FindFrom(p, l, from);
            forall i :: from <= i < (if r.Some? then r.value else |p|) ==> p[i].lbl != l
    decreases |p| - from
  {
    if from < |p| && p[from].lbl != l {
      FindFromFirst(p, l, from + 1);
    }
  }

  /** No line before the one that is found carries the label. */
  lemma FindFirst(p: seq<Line>, l: LabelName)
    ensures forall i :: 0 <= i < (if Find(p, l).Some? then Find(p, l).value else |p|) ==> p[i].lbl != l
  {
    FindFromFirst(p, l, 0);
  }

  /** Where a jump to a label leads. */
  function AfterJump(p: seq<Line>, l: LabelName, st: State): Conf {
    match Find(p, l)
    case Some(i) => Run(i, st)
    case None => Crash(st)
  }

  function AfterLine(p: seq<Line>, pc: nat, r: Result): Conf {
    match r.sig
    case Next => Run(pc + 1, r.st)
    case Jump(l) => AfterJump(p, l, r.st)
    case _ => Crash(r.st)
  }

  function Step(env: Env, p: seq<Line>, c: Conf): Conf {
    match c
    case Run(pc, st) =>
      if pc < |p| then AfterLine(p, pc, RunStmts(env.d, p[pc].stmts, st))
      else if env.forever then Run(0, st)
      else Halt(st)
    case _ => c
  }

  function Steps(env: Env, p: seq<Line>, n: nat, c: Conf): Conf {
    if n == 0 then c else Steps(env, p, n - 1, Step(env, p, c))
  }

  ghost function Flat(env: Env, p: seq<Line>, st: State): Behaviour {
    (n: nat) => Observe(Steps(env, p, n, Run(0, st)))
  }

  lemma {:induction false} StepsAdd(env: Env, p: seq<Line>, n: nat, m: nat, c: Conf)
    ensures Steps(env, p, n + m, c) == Steps(env, p, m, Steps(env, p, n, c))
  {
    if n > 0 {
      StepsAdd(env, p, n - 1, m, Step(env, p, c));
    }
  }

  lemma {:induction false} StepsCover(env: Env, p: seq<Line>, n: nat, c: Conf)
    ensures Covers(Observe(c), Observe(Steps(env, p, n, c)))
  {
    if n > 0 {
      if c.Run? && c.pc < |p| {
        RunStmtsExtends(env.d, p[c.pc].stmts, c.st);
      }
      StepsCover(env, p, n - 1, Step(env, p, c));
      CoversTransitive(Observe(c), Observe(Step(env, p, c)), Observe(Steps(env, p, n, c)));
    }
  }

  lemma FlatMonotone(env: Env, p: seq<Line>, st: State)
    ensures Monotone(Flat(env, p, st))
  {
    var b := Flat(env, p, st);
    forall n: nat, m: nat | n <= m ensures Covers(b(n), b(m)) {
      StepsAdd(env, p, n, m - n, Run(0, st));
      StepsCover(env, p, m - n, Steps(env, p, n, Run(0, st)));
    }
  }

  /** A relation between the states of two programs that is kept when the second one makes a step and
      the first one makes one or more. */
  ghost predicate Follows(env: Env, p: seq<Line>, q: seq<Line>, rel: (Conf, Conf) -> bool) {
    forall c, c' :: rel(c, c') ==>
      Observe(c) == Observe(c') && FollowsFrom(env, p, rel, c, Step(env, q, c'))
  }

  ghost predicate FollowsFrom(env: Env, p: seq<Line>, rel: (Conf, Conf) -> bool, c: Conf, next: Conf) {
    exists j: nat :: j >= 1 && rel(Steps(env, p, j, c), next)
  }

  lemma {:induction false} FollowsMany(env: Env, p: seq<Line>, q: seq<Line>, rel: (Conf, Conf) -> bool,
                                       n: nat, c: Conf, c': Conf) returns (m: nat)
    requires Follows(env, p, q, rel) && rel(c, c')
    ensures m >= n && rel(Steps(env, p, m, c), Steps(env, q, n, c'))
  {
    if n == 0 {
      m := 0;
    } else {
      var j := FollowsOnce(env, p, q, rel, c, c');
      var k := FollowsMany(env, p, q, rel, n - 1, Steps(env, p, j, c), Step(env, q, c'));
      StepsAdd(env, p, j, k, c);
      assert Steps(env, q, n, c') == Steps(env, q, n - 1, Step(env, q, c'));
      m := j + k;
    }
  }

  lemma FollowsOnce(env: Env, p: seq<Line>, q: seq<Line>, rel: (Conf, Conf) -> bool, c: Conf, c': Conf) returns (j: nat)
    requires Follows(env, p, q, rel) && rel(c, c')
    ensures j >= 1 && rel(Steps(env, p, j, c), Step(env, q, c'))
  {
    assert FollowsFrom(env, p, rel, c, Step(env, q, c'));
    j :| j >= 1 && rel(Steps(env, p, j, c), Step(env, q, c'));
  }

  /** The proof method for a pass that rewrites `p` into `q`. */
  lemma FollowsEquivalent(env: Env, p: seq<Line>, q: seq<Line>, rel: (Conf, Conf) -> bool, st: State)
    requires Follows(env, p, q, rel) && rel(Run(0, st), Run(0, st))
    ensures Equivalent(Flat(env, p, st), Flat(env, q, st))
  {
    var a, b := Flat(env, p, st), Flat(env, q, st);
    forall n: nat ensures ShownLater(a, n, b(n)) {
      var m := FollowsMany(env, p, q, rel, n, Run(0, st), Run(0, st));
      assert a(m) == b(n);
    }
    FlatMonotone(env, p, st);
    LagEquivalent(a, b);
  }

  ghost predicate SameStep(env: Env, p: seq<Line>, q: seq<Line>, inv: Conf -> bool, c: Conf) {
    Step(env, q, c) == Step(env, p, c) && inv(Step(env, p, c))
  }

  lemma {:induction false} SameSteps(env: Env, p: seq<Line>, q: seq<Line>, inv: Conf -> bool, n: nat, c: Conf)
    requires inv(c) && forall c {:trigger SameStep(env, p, q, inv, c)} :: inv(c) ==> SameStep(env, p, q, inv, c)
    ensures Steps(env, q, n, c) == Steps(env, p, n, c)
  {
    if n > 0 {
      assert SameStep(env, p, q, inv, c);
      SameSteps(env, p, q, inv, n - 1, Step(env, p, c));
    }
  }

  /** The proof method for a pass that changes no step taken from a state with the invariant `inv`. */
  lemma SameStepsEquivalent(env: Env, p: seq<Line>, q: seq<Line>, inv: Conf -> bool, st: State)
    requires inv(Run(0, st))
    requires forall c {:trigger SameStep(env, p, q, inv, c)} :: inv(c) ==> SameStep(env, p, q, inv, c)
    ensures Equivalent(Flat(env, p, st), Flat(env, q, st))
  {
    var a, b := Flat(env, p, st), Flat(env, q, st);
    forall n: nat ensures ShownLater(a, n, b(n)) {
      SameSteps(env, p, q, inv, n, Run(0, st));
      assert a(n) == b(n);
    }
    FlatMonotone(env, p, st);
    LagEquivalent(a, b);
  }

  // ---- the virtual machine ----

  type Code = seq<seq<Stmt>>

  /** The line after one that ended in `sig`; None if the program is stopped by an error. `resume` is the choice of the
      error handler: go on with the next line, or stop. */
  function NextLine(env: Env, line: nat, sig: Signal): Option<nat> {
    match sig
    case Next => Some(line + 1)
    case JumpLine(n) => Some(n - 1)
    case _ => if env.resume then Some(line + 1) else None
  }

  function VmAfterLine(env: Env, pc: nat, r: Result): Conf {
    match NextLine(env, pc, r.sig)
    case Some(n) => Run(n, r.st)
    case None => Crash(r.st)
  }

  function VmStep(env: Env, p: Code, c: Conf): Conf {
    match c
    case Run(pc, st) =>
      if pc < |p| then VmAfterLine(env, pc, RunStmts(env.d, p[pc], st))
      else if env.forever then Run(0, st)
      else Halt(st)
    case _ => c
  }

  function VmSteps(env: Env, p: Code, n: nat, c: Conf): Conf {
    if n == 0 then c else VmSteps(env, p, n - 1, VmStep(env, p, c))
  }

  ghost function Vm(env: Env, p: Code, st: State): Behaviour {
    (n: nat) => Observe(VmSteps(env, p, n, Run(0, st)))
  }
}
