/** Rewriting the expressions inside statements, as all optimizers that work on expressions do
    (pkg/parser/ast/visitor.go), and what it takes for that to keep the meaning of the statements. */
module Rewriting {
  import opened Ast
  import opened Operations
  import opened Semantics
  import opened Inversion

  function RewriteStmt(f: Expr -> Expr, s: Stmt): Stmt
    decreases s, 1
  {
    match s
    case Assign(x, aop, e) => Assign(x, aop, f(e))
    case If(c, t, e) => If(f(c), RewriteStmts(f, t), RewriteStmts(f, e))
    case Goto(e) => Goto(f(e))
    case _ => s
  }

  function RewriteStmts(f: Expr -> Expr, ss: seq<Stmt>): (r: seq<Stmt>)
    ensures |r| == |ss|
    decreases ss, 0
  {
    if ss == [] then [] else [RewriteStmt(f, ss[0])] + RewriteStmts(f, ss[1..])
  }

  ghost predicate KeepsValue(d: Decimals, f: Expr -> Expr, e: Expr) {
    forall st :: SameValue(Eval(d, e, st), Eval(d, f(e), st))
  }

  ghost predicate KeepsTruth(d: Decimals, f: Expr -> Expr, e: Expr) {
    forall st :: SameTruth(EvalCond(d, e, st), EvalCond(d, f(e), st))
  }

  /** Conditions are only asked for their truth value, all other expressions for their value. */
  ghost predicate KeepsStmt(d: Decimals, f: Expr -> Expr, s: Stmt)
    decreases s, 1
  {
    match s
    case Assign(_, _, e) => KeepsValue(d, f, e)
    case If(c, t, e) => KeepsTruth(d, f, c) && KeepsStmts(d, f, t) && KeepsStmts(d, f, e)
    case Goto(e) => KeepsValue(d, f, e)
    case _ => true
  }

  ghost predicate KeepsStmts(d: Decimals, f: Expr -> Expr, ss: seq<Stmt>)
    decreases ss, 0
  {
    forall i :: 0 <= i < |ss| ==> KeepsStmt(d, f, ss[i])
  }

  /** The same failures, and the same outcome where there is no failure. */
  ghost predicate SameResult(r: Result, r': Result) {
    (r.sig == Fail <==> r'.sig == Fail) && (r.sig != Fail ==> r' == r)
  }

  lemma {:induction false} RewriteRunStmt(d: Decimals, f: Expr -> Expr, s: Stmt, st: State)
    requires KeepsStmt(d, f, s)
    ensures SameResult(RunStmt(d, s, st), RunStmt(d, RewriteStmt(f, s), st))
    decreases s, 1
  {
    match s
    case Assign(x, aop, e) =>
      assert SameValue(Eval(d, e, st), Eval(d, f(e), st));
      assert SameValue(Eval(d, AssignedExpr(x, aop, e), st), Eval(d, AssignedExpr(x, aop, f(e)), st));
    case If(c, t, e) =>
      assert SameTruth(EvalCond(d, c, st), EvalCond(d, f(c), st));
      RewriteRun(d, f, t, EvalCond(d, c, st).st);
      RewriteRun(d, f, e, EvalCond(d, c, st).st);
    case Goto(e) => assert SameValue(Eval(d, e, st), Eval(d, f(e), st));
    case _ =>
  }

  lemma {:induction false} RewriteRun(d: Decimals, f: Expr -> Expr, ss: seq<Stmt>, st: State)
    requires KeepsStmts(d, f, ss)
    ensures SameResult(RunStmts(d, ss, st), RunStmts(d, RewriteStmts(f, ss), st))
    decreases ss, 0
  {
    if ss != [] {
      RewriteRunStmt(d, f, ss[0], st);
      RewriteRun(d, f, ss[1..], RunStmt(d, ss[0], st).st);
      assert RewriteStmts(f, ss)[1..] == RewriteStmts(f, ss[1..]);
    }
  }

  /** A rewriting that keeps even the effects of failing evaluations changes nothing at all. */
  lemma {:induction false} ExactRunStmt(d: Decimals, f: Expr -> Expr, s: Stmt, st: State)
    requires forall e, st' :: Eval(d, f(e), st') == Eval(d, e, st')
    ensures RunStmt(d, RewriteStmt(f, s), st) == RunStmt(d, s, st)
    decreases s, 1
  {
    match s
    case Assign(x, aop, e) =>
      assert Eval(d, AssignedExpr(x, aop, e), st) == Eval(d, AssignedExpr(x, aop, f(e)), st);
    case If(c, t, e) =>
      ExactRun(d, f, t, EvalCond(d, c, st).st);
      ExactRun(d, f, e, EvalCond(d, c, st).st);
    case _ =>
  }

  lemma {:induction false} ExactRun(d: Decimals, f: Expr -> Expr, ss: seq<Stmt>, st: State)
    requires forall e, st' :: Eval(d, f(e), st') == Eval(d, e, st')
    ensures RunStmts(d, RewriteStmts(f, ss), st) == RunStmts(d, ss, st)
    decreases ss, 0
  {
    if ss != [] {
      ExactRunStmt(d, f, ss[0], st);
      ExactRun(d, f, ss[1..], RunStmt(d, ss[0], st).st);
      assert RewriteStmts(f, ss)[1..] == RewriteStmts(f, ss[1..]);
    }
  }
}
