/** Lines in whose nested blocks gotos behind gotos were deleted, perhaps several times, do what they did before. */
module Tidying {
  import opened Ast
  import opened Operations
  import opened Semantics
  import opened Gotos
  import opened Lowering

  /** `x` is what attempts to inline the blocks around it have left of `y`. */
  ghost predicate TidyOf(x: Line, y: Line) {
    exists n: nat :: x == Tidied(n, y)
  }

  function Tidied(n: nat, line: Line): Line {
    if n == 0 then line else Tidied(n - 1, TidyLine(line))
  }

  lemma TidySelf(line: Line)
    ensures TidyOf(line, line)
  {
    assert Tidied(0, line) == line;
  }

  lemma TidyMore(x: Line, y: Line)
    requires TidyOf(x, TidyLine(y))
    ensures TidyOf(x, y)
  {
    var n: nat :| x == Tidied(n, TidyLine(y));
    assert x == Tidied(n + 1, y);
  }

  /** Lines without nested blocks stay. */
  lemma {:induction false} TidiedFixed(n: nat, line: Line)
    requires TidyStmts(line.stmts) == line.stmts
    ensures Tidied(n, line) == line
  {
    if n > 0 {
      TidiedFixed(n - 1, line);
    }
  }

  lemma TidyFixed(x: Line, y: Line)
    requires TidyOf(x, y) && TidyStmts(y.stmts) == y.stmts
    ensures x == y
  {
    var n: nat :| x == Tidied(n, y);
    TidiedFixed(n, y);
  }

  lemma {:induction false} TidyStmtsRun(d: Decimals, ss: seq<Stmt>, st: State)
    ensures RunStmts(d, TidyStmts(ss), st) == RunStmts(d, ss, st)
  {
    if ss != [] {
      DedupStmtRun(d, ss[0], st);
      TidyStmtsRun(d, ss[1..], RunStmt(d, ss[0], st).st);
      assert TidyStmts(ss)[1..] == TidyStmts(ss[1..]);
    }
  }

  lemma {:induction false} TidiedRun(d: Decimals, n: nat, line: Line, st: State)
    ensures RunStmts(d, Tidied(n, line).stmts, st) == RunStmts(d, line.stmts, st)
  {
    if n > 0 {
      TidyStmtsRun(d, line.stmts, st);
      TidiedRun(d, n - 1, TidyLine(line), st);
    }
  }

  lemma TidyRun(d: Decimals, x: Line, y: Line, st: State)
    requires TidyOf(x, y)
    ensures RunStmts(d, x.stmts, st) == RunStmts(d, y.stmts, st)
  {
    var n: nat :| x == Tidied(n, y);
    TidiedRun(d, n, y, st);
  }

  lemma TidyLabel(x: Line, y: Line)
    requires TidyOf(x, y)
    ensures x.lbl == y.lbl
  {
    var n: nat :| x == Tidied(n, y);
    TidiedLabel(n, y);
  }

  lemma {:induction false} TidiedLabel(n: nat, line: Line)
    ensures Tidied(n, line).lbl == line.lbl
  {
    if n > 0 {
      TidiedLabel(n - 1, TidyLine(line));
    }
  }

  // ---- the lines of the compiler ----

  lemma GotoStays(l: LabelName)
    ensures TidyStmts([GotoLabel(l)]) == [GotoLabel(l)]
  {
    assert [GotoLabel(l)][1..] == [];
  }

  lemma GotoIfStays(cond: Expr, l: LabelName)
    ensures TidyStmts([If(cond, [GotoLabel(l)], [])]) == [If(cond, [GotoLabel(l)], [])]
  {
    var s := If(cond, [GotoLabel(l)], []);
    assert [s][1..] == [] && [GotoLabel(l)][1..] == [];
    assert DedupStmts([], true).stmts == [] && DedupStmts([], false).stmts == [];
    assert DedupStmts([GotoLabel(l)], false).stmts == [DedupStmt(GotoLabel(l))] + [];
    assert DedupStmt(s) == s;
  }
}
