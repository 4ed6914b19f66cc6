/** What loops, ifs, breaks and gotos of NOLOL mean (docs/nolol.md), as laws about whole constructs. */
module Structure {
  import opened Ast
  import opened Operations
  import opened Semantics
  import opened Nolol

  /** A line of statements without a label. */
  function Stmts(ss: seq<Stmt>): Element {
    Element.Plain(Line("", false, false, ss))
  }

  lemma Step1(env: Env, prog: seq<Element>, c: SConf)
    ensures SSteps(env, prog, 1, c) == SStep(env, prog, c)
  {
    assert SSteps(env, prog, 0, SStep(env, prog, c)) == SStep(env, prog, c);
  }

  lemma Step2(env: Env, prog: seq<Element>, c: SConf)
    ensures SSteps(env, prog, 2, c) == SStep(env, prog, SStep(env, prog, c))
  {
    Step1(env, prog, SStep(env, prog, c));
    assert SSteps(env, prog, 2, c) == SSteps(env, prog, 1, SStep(env, prog, c));
  }

  // ---- loops ----

  /** Running the condition and the block `n` times, and finding the condition false then, leads to `st'`. */
  predicate LoopRuns(d: Decimals, cond: Expr, ss: seq<Stmt>, n: nat, st: State, st': State) {
    if n == 0 then EvalCond(d, cond, st) == False(st')
    else
      match EvalCond(d, cond, st)
      case True(s) =>
        var r := RunStmts(d, ss, s);
        r.sig == Next && LoopRuns(d, cond, ss, n - 1, r.st, st')
      case _ => false
  }

  lemma {:induction false} LoopAgain(env: Env, prog: seq<Element>, cond: Expr, ss: seq<Stmt>, n: nat, k: Kont,
                                     st: State, st': State)
    requires LoopRuns(env.d, cond, ss, n, st, st')
    ensures SSteps(env, prog, 2 * n + 1, SRun([While(cond, [Stmts(ss)])], k, st)) == Go([], k, st')
    decreases n
  {
    var w := While(cond, [Stmts(ss)]);
    var c := SRun([w], k, st);
    assert [w][1..] == [] && [Stmts(ss)][1..] == [];
    if n == 0 {
      Step1(env, prog, c);
    } else {
      var s := EvalCond(env.d, cond, st).st;
      var s' := RunStmts(env.d, ss, s).st;
      var c1 := SRun([Stmts(ss)], Loop(w, Then([], k)), s);
      assert SStep(env, prog, c) == c1;
      assert SStep(env, prog, c1) == SRun([w], Then([], k), s');
      Step2(env, prog, c);
      SStepsAdd(env, prog, 2, 2 * n - 1, c);
      LoopAgain(env, prog, cond, ss, n - 1, Then([], k), s', st');
    }
  }

  /** A loop runs its block as often as its condition holds, and then goes on behind itself. */
  lemma WhileLaw(env: Env, prog: seq<Element>, cond: Expr, ss: seq<Stmt>, n: nat, rest: seq<Element>, k: Kont,
                 st: State, st': State)
    requires LoopRuns(env.d, cond, ss, n, st, st')
    ensures SSteps(env, prog, 2 * n + 1, Go([While(cond, [Stmts(ss)])] + rest, k, st)) == Go(rest, k, st')
  {
    var w := While(cond, [Stmts(ss)]);
    var c := Go([w] + rest, k, st);
    assert ([w] + rest)[0] == w && ([w] + rest)[1..] == rest && [Stmts(ss)][1..] == [];
    if n == 0 {
      Step1(env, prog, c);
    } else {
      var s := EvalCond(env.d, cond, st).st;
      var s' := RunStmts(env.d, ss, s).st;
      var c1 := SRun([Stmts(ss)], Loop(w, Then(rest, k)), s);
      assert SStep(env, prog, c) == c1;
      assert SStep(env, prog, c1) == SRun([w], Then(rest, k), s');
      Step2(env, prog, c);
      SStepsAdd(env, prog, 2, 2 * n - 1, c);
      LoopAgain(env, prog, cond, ss, n - 1, Then(rest, k), s', st');
    }
  }

  /** `break` leaves the loop: what follows in the block is not run, the condition is not tested again. */
  lemma BreakLaw(env: Env, prog: seq<Element>, cond: Expr, ss: seq<Stmt>, dead: seq<Stmt>, more: seq<Element>,
                 rest: seq<Element>, k: Kont, st: State, s: State, s': State)
    requires EvalCond(env.d, cond, st) == True(s) && RunStmts(env.d, ss, s) == Result(Next, s')
    ensures SSteps(env, prog, 2, Go([While(cond, [Stmts(ss + [Break] + dead)] + more)] + rest, k, st)) ==
            Go(rest, k, s')
  {
    var line := ss + [Break] + dead;
    var w := While(cond, [Stmts(line)] + more);
    JumpEndsLine(env.d, ss, Break, dead, s);
    EnterLoop(env, prog, w, rest, k, st, s);
    Step2(env, prog, Go([w] + rest, k, st));
    assert ([Stmts(line)] + more)[0] == Stmts(line);
  }

  lemma JumpEndsLine(d: Decimals, ss: seq<Stmt>, jump: Stmt, dead: seq<Stmt>, st: State)
    requires jump.Break? || jump.Continue? || jump.GotoLabel?
    ensures var r := RunStmts(d, ss, st);
            r.sig == Next ==> RunStmts(d, ss + [jump] + dead, st) == RunStmt(d, jump, r.st)
  {
    assert ss + [jump] + dead == ss + ([jump] + dead);
    RunAppend(d, ss, [jump] + dead, st);
  }

  lemma EnterLoop(env: Env, prog: seq<Element>, w: Element, rest: seq<Element>, k: Kont, st: State, s: State)
    requires w.While? && w.body != [] && EvalCond(env.d, w.cond, st) == True(s)
    ensures SStep(env, prog, Go([w] + rest, k, st)) == SRun(w.body, Loop(w, Then(rest, k)), s)
  {
    assert ([w] + rest)[0] == w && ([w] + rest)[1..] == rest;
  }

  /** `continue` goes to the condition: if that is false now, the loop is left. */
  lemma ContinueLaw(env: Env, prog: seq<Element>, cond: Expr, ss: seq<Stmt>, dead: seq<Stmt>, more: seq<Element>,
                    rest: seq<Element>, k: Kont, st: State, s: State, s': State, s'': State)
    requires EvalCond(env.d, cond, st) == True(s) && RunStmts(env.d, ss, s) == Result(Next, s')
    requires EvalCond(env.d, cond, s') == False(s'')
    ensures SSteps(env, prog, 3, Go([While(cond, [Stmts(ss + [Continue] + dead)] + more)] + rest, k, st)) ==
            Go(rest, k, s'')
  {
    var line := ss + [Continue] + dead;
    var w := While(cond, [Stmts(line)] + more);
    JumpEndsLine(env.d, ss, Continue, dead, s);
    EnterLoop(env, prog, w, rest, k, st, s);
    Step2(env, prog, Go([w] + rest, k, st));
    assert ([Stmts(line)] + more)[0] == Stmts(line);
    SStepsAdd(env, prog, 2, 1, Go([w] + rest, k, st));
    assert [w][1..] == [];
    Step1(env, prog, SRun([w], Then(rest, k), s'));
  }

  /** `break` in an inner loop leaves that one only. */
  lemma InnerBreakLaw(env: Env, prog: seq<Element>, outer: Expr, inner: Expr, ss: seq<Stmt>, more: seq<Element>,
                      rest: seq<Element>, k: Kont, st: State, s: State, t: State, t': State)
    requires EvalCond(env.d, outer, st) == True(s) && EvalCond(env.d, inner, s) == True(t)
    requires RunStmts(env.d, ss, t) == Result(Next, t')
    ensures var w := While(outer, [While(inner, [Stmts(ss + [Break])])] + more);
            SSteps(env, prog, 3, Go([w] + rest, k, st)) == Go(more, Loop(w, Then(rest, k)), t')
  {
    var v := While(inner, [Stmts(ss + [Break])]);
    var w := While(outer, [v] + more);
    EnterLoop(env, prog, w, rest, k, st, s);
    Step1(env, prog, Go([w] + rest, k, st));
    SStepsAdd(env, prog, 1, 2, Go([w] + rest, k, st));
    assert ss + [Break] + [] == ss + [Break] && [Stmts(ss + [Break])] + [] == [Stmts(ss + [Break])];
    BreakLaw(env, prog, inner, ss, [], [], more, Loop(w, Then(rest, k)), s, t, t');
  }

  // ---- ifs ----

  /** The first condition that holds decides; if none holds, the else block is run, if there is one. */
  lemma IfLaw(env: Env, prog: seq<Element>, c1: Expr, ss1: seq<Stmt>, c2: Expr, ss2: seq<Stmt>, ss3: seq<Stmt>,
              rest: seq<Element>, k: Kont, st: State)
    ensures var e := MultiIf([Branch(c1, [Stmts(ss1)]), Branch(c2, [Stmts(ss2)])], ElseBlock([Stmts(ss3)]));
            var e' := e.(els := NoElse);
            var t1 := EvalCond(env.d, c1, st);
            var t2 := EvalCond(env.d, c2, t1.st);
            && (t1.True? ==> OneLine(env, prog, e, rest, k, st, ss1, t1.st))
            && (t1.False? && t2.True? ==> OneLine(env, prog, e, rest, k, st, ss2, t2.st))
            && (t1.False? && t2.False? ==> OneLine(env, prog, e, rest, k, st, ss3, t2.st))
            && (t1.False? && t2.False? ==> SStep(env, prog, Go([e'] + rest, k, st)) == Go(rest, k, t2.st))
            && (t1.Bad? ==> SStep(env, prog, Go([e] + rest, k, st)) == SCrash(t1.st))
            && (t1.False? && t2.Bad? ==> SStep(env, prog, Go([e] + rest, k, st)) == SCrash(t2.st))
  {
    var e := MultiIf([Branch(c1, [Stmts(ss1)]), Branch(c2, [Stmts(ss2)])], ElseBlock([Stmts(ss3)]));
    var e' := e.(els := NoElse);
    var t1 := EvalCond(env.d, c1, st);
    var t2 := EvalCond(env.d, c2, t1.st);
    TwoChoices(env.d, e.branches, st);
    assert ([e] + rest)[0] == e && ([e] + rest)[1..] == rest && ([e'] + rest)[0] == e' && ([e'] + rest)[1..] == rest;
    if t1.True? {
      OneLineRuns(env, prog, e, rest, k, st, ss1, t1.st);
    } else if t1.False? && t2.True? {
      OneLineRuns(env, prog, e, rest, k, st, ss2, t2.st);
    } else if t1.False? && t2.False? {
      OneLineRuns(env, prog, e, rest, k, st, ss3, t2.st);
    }
  }

  lemma TwoChoices(d: Decimals, branches: seq<Branch>, st: State)
    requires |branches| == 2
    ensures var t1 := EvalCond(d, branches[0].cond, st);
            var t2 := EvalCond(d, branches[1].cond, t1.st);
            Choose(d, branches, 0, st) ==
            match t1
            case Bad(s) => BadChoice(s)
            case True(s) => Chosen(0, s)
            case False(_) =>
              match t2 case Bad(s) => BadChoice(s) case True(s) => Chosen(1, s) case False(s) => NoneChosen(s)
  {
    var t1 := EvalCond(d, branches[0].cond, st);
    var t2 := EvalCond(d, branches[1].cond, t1.st);
    assert Choose(d, branches, 2, t2.st) == NoneChosen(t2.st);
    assert Choose(d, branches, 1, t1.st) ==
           match t2 case Bad(s) => BadChoice(s) case True(s) => Chosen(1, s) case False(s) => NoneChosen(s);
  }

  lemma OneLineRuns(env: Env, prog: seq<Element>, e: Element, rest: seq<Element>, k: Kont, st: State, ss: seq<Stmt>,
                    s: State)
    requires SStep(env, prog, Go([e] + rest, k, st)) == Go([Stmts(ss)], Then(rest, k), s)
    ensures OneLine(env, prog, e, rest, k, st, ss, s)
  {
    assert [Stmts(ss)][1..] == [];
    Step2(env, prog, Go([e] + rest, k, st));
    assert Settle([], Then(rest, k)) == Settle(rest, k);
  }

  /** The element runs one line of statements from `s` on, and then control goes on behind the element. */
  ghost predicate OneLine(env: Env, prog: seq<Element>, e: Element, rest: seq<Element>, k: Kont, st: State,
                          ss: seq<Stmt>, s: State) {
    RunStmts(env.d, ss, s).sig == Next ==>
      SSteps(env, prog, 2, Go([e] + rest, k, st)) == Go(rest, k, RunStmts(env.d, ss, s).st)
  }

  // ---- gotos ----

  /** A goto leads to the line with the label, also into a loop: there the loop goes on. */
  lemma GotoIntoLoop(env: Env, l: LabelName, cond: Expr, ss: seq<Stmt>, tt: seq<Stmt>, rest: seq<Element>, st: State,
                     s: State)
    requires RunStmts(env.d, ss, st) == Result(Next, s)
    ensures var line := Element.Plain(Line(l, false, false, tt));
            var w := While(cond, [line]);
            var prog := [Stmts(ss + [GotoLabel(l)]), w] + rest;
            SStep(env, prog, Go(prog, Stop, st)) == Go([line], Loop(w, Then(rest, Stop)), s)
  {
    var line := Element.Plain(Line(l, false, false, tt));
    var w := While(cond, [line]);
    var prog := [Stmts(ss + [GotoLabel(l)]), w] + rest;
    JumpEndsLine(env.d, ss, GotoLabel(l), [], st);
    assert ss + [GotoLabel(l)] + [] == ss + [GotoLabel(l)];
    assert prog[1..] == [w] + rest && prog[1..][0] == w && prog[1..][1..] == rest && [line][1..] == [];
    assert [line] + [] == [line];
    assert SFind([line], l, Loop(w, Then(rest, Stop))) == Some(Point([line], Loop(w, Then(rest, Stop))));
    assert SFindIn(w, rest, l, Stop) == Some(Point([line], Loop(w, Then(rest, Stop))));
    assert SFindIn(prog[0], prog[1..], l, Stop) == None;
    assert SFind(prog[1..], l, Stop) == SFindIn(w, rest, l, Stop);
    assert SFind(prog, l, Stop) == SFind(prog[1..], l, Stop);
  }

  /** A goto to a label that nobody has set is an error. */
  lemma GotoNowhere(env: Env, prog: seq<Element>, l: LabelName, es: seq<Element>, k: Kont, st: State)
    requires SFind(prog, l, Stop) == None
    ensures SStep(env, prog, Go([Stmts([GotoLabel(l)])] + es, k, st)) == SCrash(st)
  {
    var es' := [Stmts([GotoLabel(l)])] + es;
    assert RunStmt(env.d, GotoLabel(l), st) == Result(Jump(l), st);
    assert RunStmts(env.d, [GotoLabel(l)], st) == Result(Jump(l), st);
    assert es'[0] == Stmts([GotoLabel(l)]) && Go(es', k, st) == SRun(es', k, st);
  }

  /** Behind its last element, the program starts again or is over. */
  lemma ProgramEnd(env: Env, prog: seq<Element>, st: State)
    ensures SStep(env, prog, Go([], Stop, st)) == if env.forever then Go(prog, Stop, st) else SHalt(st)
  {
  }
}
