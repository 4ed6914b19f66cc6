/** All optimizers one after another (pkg/optimizers/optimizer.go), and what they do to the runs of a program. */
module Optimizing {
  import opened Ast
  import opened Operations
  import opened Semantics
  import opened Machine
  import opened Inversion
  import opened Rewriting
  import opened Folding
  import opened Naming
  import opened Renaming

  /** A YOLOL program, which the optimizers change. */
  class Script {
    var lines: Code

    constructor (lines: Code)
      ensures this.lines == lines
    {
      this.lines := lines;
    }
  }

  function RewriteCode(f: Expr -> Expr, code: Code): (r: Code)
    ensures |r| == |code|
  {
    seq(|code|, i requires 0 <= i < |code| => RewriteStmts(f, code[i]))
  }

  function FoldCode(d: Decimals, code: Code): Code {
    RewriteCode(e => Fold(d, e), code)
  }

  function InvertCode(code: Code): Code {
    RewriteCode(e => Invert(e), code)
  }

  function Optimized(d: Decimals, code: Code): Code {
    RenameCode(NO_NAMES, InvertCode(FoldCode(d, code))).1
  }

  // ---- the passes ----

  method RewriteStatement(f: Expr -> Expr, s: Stmt) returns (r: Stmt)
    ensures r == RewriteStmt(f, s)
    decreases s, 1
  {
    match s
    case Assign(x, aop, e) => r := Assign(x, aop, f(e));
    case Goto(e) => r := Goto(f(e));
    case If(c, t, e) =>
      var t' := RewriteStatements(f, t);
      var e' := RewriteStatements(f, e);
      r := If(f(c), t', e');
    case _ => r := s;
  }

  /** Replaces the statements of a list one after another. */
  method RewriteStatements(f: Expr -> Expr, ss: seq<Stmt>) returns (list: seq<Stmt>)
    ensures list == RewriteStmts(f, ss)
    decreases ss, 0
  {
    list := ss;
    var i := 0;
    ghost var done := [];
    while i < |list|
      invariant i == |done| <= |ss| && list == done + ss[i..]
      invariant RewriteStmts(f, ss) == done + RewriteStmts(f, ss[i..])
      decreases |ss| - i
    {
      var s := RewriteStatement(f, list[i]);
      Replaced(done, ss[i..], s);
      assert ss[i..][1..] == ss[i + 1..];
      list := list[i := s];
      done := done + [s];
      i := i + 1;
    }
    assert RewriteStmts(f, ss[i..]) == [];
  }

  lemma Replaced(done: seq<Stmt>, rest: seq<Stmt>, s: Stmt)
    requires rest != []
    ensures (done + rest)[|done|] == rest[0] && (done + rest)[|done| := s] == done + [s] + rest[1..]
    ensures forall more: seq<Stmt> :: done + ([s] + more) == done + [s] + more
  {
  }

  method RewriteProgram(f: Expr -> Expr, p: Script)
    modifies p
    ensures p.lines == RewriteCode(f, old(p.lines))
  {
    var i := 0;
    while i < |p.lines|
      invariant |p.lines| == |old(p.lines)| && 0 <= i <= |p.lines|
      invariant forall j :: 0 <= j < |p.lines| ==>
                p.lines[j] == if j < i then RewriteCode(f, old(p.lines))[j] else old(p.lines)[j]
    {
      var line := RewriteStatements(f, p.lines[i]);
      p.lines := p.lines[i := line];
      i := i + 1;
    }
  }

  method RenameExpression(o: VariableNameOptimizer, e: Expr) returns (r: Expr)
    modifies o
    ensures (o.Table(), r) == RenameExpr(old(o.Table()), e)
    decreases e
  {
    match e
    case Deref(x, inc) =>
      var y := o.OptimizeVarName(x);
      r := Deref(y, inc);
    case Bin(op, a, b) =>
      var a' := RenameExpression(o, a);
      var b' := RenameExpression(o, b);
      r := Bin(op, a', b');
    case Un(op, a) =>
      var a' := RenameExpression(o, a);
      r := Un(op, a');
    case _ => r := e;
  }

  method RenameStatement(o: VariableNameOptimizer, s: Stmt) returns (r: Stmt)
    modifies o
    ensures (o.Table(), r) == RenameStmt(old(o.Table()), s)
    decreases s, 1
  {
    match s
    case Assign(x, aop, e) =>
      var y := o.OptimizeVarName(x);
      var e' := RenameExpression(o, e);
      r := Assign(y, aop, e');
    case If(c, t, e) =>
      var c' := RenameExpression(o, c);
      var t' := RenameStatements(o, t);
      var e' := RenameStatements(o, e);
      r := If(c', t', e');
    case Goto(e) =>
      var e' := RenameExpression(o, e);
      r := Goto(e');
    case Touch(x, inc) =>
      var y := o.OptimizeVarName(x);
      r := Touch(y, inc);
    case _ => r := s;
  }

  method RenameStatements(o: VariableNameOptimizer, ss: seq<Stmt>) returns (list: seq<Stmt>)
    modifies o
    ensures (o.Table(), list) == RenameStmts(old(o.Table()), ss)
    decreases ss, 0
  {
    list := [];
    var i := 0;
    while i < |ss|
      invariant 0 <= i <= |ss|
      invariant RenameStmts(old(o.Table()), ss).0 == RenameStmts(o.Table(), ss[i..]).0
      invariant RenameStmts(old(o.Table()), ss).1 == list + RenameStmts(o.Table(), ss[i..]).1
    {
      assert ss[i..][1..] == ss[i + 1..];
      var s := RenameStatement(o, ss[i]);
      list := list + [s];
      i := i + 1;
    }
    assert RenameStmts(old(o.Table()), ss).1 == list;
  }

  method RenameProgram(o: VariableNameOptimizer, p: Script)
    requires o.Table() == NO_NAMES
    modifies o, p
    ensures (o.Table(), p.lines) == RenameCode(NO_NAMES, old(p.lines))
  {
    var lines: Code := [];
    var i := 0;
    while i < |p.lines|
      invariant 0 <= i <= |p.lines| && p.lines == old(p.lines)
      invariant RenameCode(NO_NAMES, p.lines).0 == RenameCode(o.Table(), p.lines[i..]).0
      invariant RenameCode(NO_NAMES, p.lines).1 == lines + RenameCode(o.Table(), p.lines[i..]).1
    {
      assert p.lines[i..][1..] == p.lines[i + 1..];
      var line := RenameStatements(o, p.lines[i]);
      lines := lines + [line];
      i := i + 1;
    }
    assert RenameCode(NO_NAMES, p.lines).1 == lines;
    p.lines := lines;
  }

  /** The optimizer for static expressions, the one for negations and the one for names, in this order. */
  method Optimize(d: Decimals, p: Script) returns (o: VariableNameOptimizer)
    modifies p
    ensures p.lines == Optimized(d, old(p.lines))
    ensures fresh(o) && o.Table() == RenameCode(NO_NAMES, InvertCode(FoldCode(d, old(p.lines)))).0
  {
    RewriteProgram(e => Fold(d, e), p);
    assert p.lines == FoldCode(d, old(p.lines));
    RewriteProgram(e => Invert(e), p);
    assert p.lines == InvertCode(FoldCode(d, old(p.lines)));
    o := new VariableNameOptimizer();
    RenameProgram(o, p);
  }

  // ---- folding is exact ----

  lemma FoldSteps(env: Env, code: Code, k: nat, c: Conf)
    requires env.d.ShowsExactly()
    ensures VmSteps(env, FoldCode(env.d, code), k, c) == VmSteps(env, code, k, c)
    decreases k
  {
    if k > 0 {
      FoldStep(env, code, c);
      FoldSteps(env, code, k - 1, VmStep(env, code, c));
    }
  }

  lemma FoldStep(env: Env, code: Code, c: Conf)
    requires env.d.ShowsExactly()
    ensures VmStep(env, FoldCode(env.d, code), c) == VmStep(env, code, c)
  {
    if c.Run? && c.pc < |code| {
      var f := e => Fold(env.d, e);
      forall e, st ensures Eval(env.d, f(e), st) == Eval(env.d, e, st) {
        FoldEval(env.d, e, st);
      }
      ExactRun(env.d, f, code[c.pc], c.st);
    }
  }

  // ---- negations ----

  /** What is negated twice where a value is needed is 0 or 1. */
  ghost predicate FineStmt(d: Decimals, s: Stmt)
    decreases s, 1
  {
    match s
    case Assign(_, _, e) => FineAsValue(d, e)
    case If(c, t, e) => FineAsCondition(d, c) && FineStmts(d, t) && FineStmts(d, e)
    case Goto(e) => FineAsValue(d, e)
    case _ => true
  }

  ghost predicate FineStmts(d: Decimals, ss: seq<Stmt>)
    decreases ss, 0
  {
    forall i :: 0 <= i < |ss| ==> FineStmt(d, ss[i])
  }

  ghost predicate FineCode(d: Decimals, code: Code) {
    forall i :: 0 <= i < |code| ==> FineStmts(d, code[i])
  }

  lemma {:induction false} FineKeeps(d: Decimals, f: Expr -> Expr, s: Stmt)
    requires FineStmt(d, s) && forall e {:trigger f(e)} :: f(e) == Invert(e)
    ensures KeepsStmt(d, f, s)
    decreases s, 1
  {
    match s
    case Assign(_, _, e) =>
      forall st ensures SameValue(Eval(d, e, st), Eval(d, f(e), st)) { InvertValue(d, e, st); }
    case If(c, t, e) =>
      forall st ensures SameTruth(EvalCond(d, c, st), EvalCond(d, f(c), st)) { InvertCondition(d, c, st); }
      FineListKeeps(d, f, t);
      FineListKeeps(d, f, e);
    case Goto(e) =>
      forall st ensures SameValue(Eval(d, e, st), Eval(d, f(e), st)) { InvertValue(d, e, st); }
    case _ =>
  }

  lemma {:induction false} FineListKeeps(d: Decimals, f: Expr -> Expr, ss: seq<Stmt>)
    requires FineStmts(d, ss) && forall e {:trigger f(e)} :: f(e) == Invert(e)
    ensures KeepsStmts(d, f, ss)
    decreases ss, 0
  {
    forall i | 0 <= i < |ss| ensures KeepsStmt(d, f, ss[i]) {
      FineKeeps(d, f, ss[i]);
    }
  }

  /** The same place, unless both programs have failed. */
  ghost predicate SameUnlessCrash(c: Conf, c': Conf) {
    (c.Crash? <==> c'.Crash?) && (!c.Crash? ==> c' == c)
  }

  lemma InvertStep(env: Env, code: Code, c: Conf, c': Conf)
    requires !env.resume && FineCode(env.d, code) && SameUnlessCrash(c, c')
    ensures SameUnlessCrash(VmStep(env, code, c), VmStep(env, InvertCode(code), c'))
  {
    if c.Run? && c.pc < |code| {
      var f := e => Invert(e);
      FineListKeeps(env.d, f, code[c.pc]);
      RewriteRun(env.d, f, code[c.pc], c.st);
    }
  }

  lemma {:induction false} InvertSteps(env: Env, code: Code, k: nat, c: Conf, c': Conf)
    requires !env.resume && FineCode(env.d, code) && SameUnlessCrash(c, c')
    ensures SameUnlessCrash(VmSteps(env, code, k, c), VmSteps(env, InvertCode(code), k, c'))
    decreases k
  {
    if k > 0 {
      InvertStep(env, code, c, c');
      InvertSteps(env, code, k - 1, VmStep(env, code, c), VmStep(env, InvertCode(code), c'));
    }
  }

  // ---- all of them ----

  /** The compound optimizer: the number of lines stays, and after any number of executed lines the optimized program is
      at the same line, has the same shared variables, has the same local variables under their short names and has
      made the same writes; and it fails when the original fails. */
  lemma CompoundCorrect(env: Env, code: Code, globals: map<string, Value>, k: nat)
    requires env.d.ShowsExactly() && !env.resume && FineCode(env.d, FoldCode(env.d, code))
    ensures |Optimized(env.d, code)| == |code|
    ensures var start := Run(0, State(map[], globals, []));
            var n := RenameCode(NO_NAMES, InvertCode(FoldCode(env.d, code))).0;
            var c, c' := VmSteps(env, code, k, start), VmSteps(env, Optimized(env.d, code), k, start);
            && NamesOk(n)
            && (c.Crash? <==> c'.Crash?)
            && (!c.Crash? ==> SameConf(n, c, c'))
  {
    var start := Run(0, State(map[], globals, []));
    var folded := FoldCode(env.d, code);
    var inverted := InvertCode(folded);
    FoldSteps(env, code, k, start);
    InvertSteps(env, folded, k, start, start);
    RenamingExact(env, inverted, globals, k);
    RenameLength(NO_NAMES, inverted);
  }

  lemma {:induction false} RenameLength(n: Names, code: Code)
    ensures |RenameCode(n, code).1| == |code|
    decreases |code|
  {
    if code != [] {
      RenameLength(RenameStmts(n, code[0]).0, code[1..]);
    }
  }

  // ---- a number that is negated twice ----

  /** `x = 5 y = not not x`, in one line */
  function NotNotX(): seq<Stmt> {
    [Assign("x", Set, Num("5")), Assign("y", Set, Un(Not, Un(Not, Deref("x", Plain))))]
  }

  lemma NotNotOptimized(d: Decimals)
    ensures RenameCode(NO_NAMES, InvertCode(FoldCode(d, [NotNotX()]))).0.mapping == map["x" := "a", "y" := "b"]
    ensures Optimized(d, [NotNotX()]) == [[Assign("a", Set, Num("5")), Assign("b", Set, Deref("a", Plain))]]
  {
    var ss := NotNotX();
    var tt := [ss[0], Assign("y", Set, Deref("x", Plain))];
    var f, g := e => Fold(d, e), e => Invert(e);
    assert ss[1..] == [ss[1]] && ss[1..][1..] == [] && tt[1..] == [tt[1]] && tt[1..][1..] == [];
    var x := Deref("x", Plain);
    assert Fold(d, x) == x && Fold(d, Un(Not, x)) == Un(Not, x);
    assert Fold(d, Un(Not, Un(Not, x))) == Un(Not, Un(Not, x));
    assert RewriteStmts(f, ss) == [ss[0]] + ([ss[1]] + []);
    assert [ss[0]] + ([ss[1]] + []) == ss;
    assert PushDown(Un(Not, Un(Not, x))) == Some(x) && Invert(x) == x;
    assert Invert(Un(Not, Un(Not, x))) == x;
    assert RewriteStmts(g, ss) == [tt[0]] + ([tt[1]] + []);
    assert [tt[0]] + ([tt[1]] + []) == tt;
    assert FoldCode(d, [ss]) == [ss];
    assert InvertCode([ss])[0] == RewriteStmts(g, ss);
    assert InvertCode([ss]) == [tt];
    NotNotNames();
    var n := RenameStmts(NO_NAMES, tt).0;
    assert [tt][1..] == [] && RenameCode(n, []) == (n, []);
    assert RenameCode(NO_NAMES, [tt]) == (n, [RenameStmts(NO_NAMES, tt).1] + []);
  }

  lemma NotNotNames()
    ensures var (n, ss) := RenameStmts(NO_NAMES, [NotNotX()[0], Assign("y", Set, Deref("x", Plain))]);
            && n.mapping == map["x" := "a", "y" := "b"]
            && ss == [Assign("a", Set, Num("5")), Assign("b", Set, Deref("a", Plain))]
  {
    assert NameOf(0) == "" && NameOf(1) == NameOf(0) + ['a'] && NameOf(2) == NameOf(0) + ['b'];
    assert Lower("x") == "x" && Lower("y") == "y";
    var tt := [NotNotX()[0], Assign("y", Set, Deref("x", Plain))];
    assert "x"[0] == 'x' && "y"[0] == 'y';
    assert !IsGlobal("x") && !IsGlobal("y") && NameOf(1) == "a" && NameOf(2) == "b";
    var n1 := Short(NO_NAMES, "x").0;
    assert n1.mapping == map["x" := "a"] && n1.next == 2;
    assert tt[1..] == [tt[1]] && tt[1..][1..] == [];
    assert RenameStmt(NO_NAMES, tt[0]) == (n1, Assign("a", Set, Num("5")));
    var n2 := Short(n1, "y").0;
    assert n2.mapping == map["x" := "a", "y" := "b"];
    assert Short(n1, "y").1 == "b" && Short(n2, "x") == (n2, "a");
    assert RenameStmt(n1, tt[1]) == (n2, Assign("b", Set, Deref("a", Plain)));
    assert RenameStmts(n2, []) == (n2, []);
    assert RenameStmts(n1, [tt[1]]) == (n2, [Assign("b", Set, Deref("a", Plain))] + []);
  }

  /** Constants are folded before negations are looked at, but a variable is not: the program writes 1 to `y`, the
      optimized one 5. */
  lemma DoubleNegationOptimized(env: Env, globals: map<string, Value>)
    requires env.d.parse("5") == Some(5.0)
    ensures var start := Run(0, State(map[], globals, []));
            var n := RenameCode(NO_NAMES, InvertCode(FoldCode(env.d, [NotNotX()]))).0;
            var c, c' := VmSteps(env, [NotNotX()], 1, start), VmSteps(env, Optimized(env.d, [NotNotX()]), 1, start);
            && c.Run? && c'.Run? && Get(c.st, "y") == N(1.0) && Get(c'.st, Renamed(n, "y")) == N(5.0)
            && !SameConf(n, c, c')
  {
    var st := State(map[], globals, []);
    var ss, tt := NotNotX(), [Assign("a", Set, Num("5")), Assign("b", Set, Deref("a", Plain))];
    NotNotOptimized(env.d);
    var n := RenameCode(NO_NAMES, InvertCode(FoldCode(env.d, [ss]))).0;
    assert Lower("x") == "x" && Lower("y") == "y" && Lower("a") == "a" && Lower("b") == "b";
    assert ss[1..] == [ss[1]] && ss[1..][1..] == [] && tt[1..] == [tt[1]] && tt[1..][1..] == [];
    var s1, t1 := Put(st, "x", N(5.0)), Put(st, "a", N(5.0));
    NotTruth(env.d, Deref("x", Plain), s1);
    NotTruth(env.d, Un(Not, Deref("x", Plain)), s1);
    assert RunStmts(env.d, ss, st) == RunStmts(env.d, [ss[1]], s1) == Result(Next, Put(s1, "y", N(1.0)));
    assert RunStmts(env.d, tt, st) == RunStmts(env.d, [tt[1]], t1) == Result(Next, Put(t1, "b", N(5.0)));
    var c, c' := Run(1, Put(s1, "y", N(1.0))), Run(1, Put(t1, "b", N(5.0)));
    assert VmSteps(env, [ss], 1, Run(0, st)) == VmSteps(env, [ss], 0, c);
    assert VmSteps(env, [tt], 1, Run(0, st)) == VmSteps(env, [tt], 0, c');
    assert !SameVar(n, c.st.locals, c'.st.locals, "y");
  }

  /** Constants are folded before negations are looked at: `y = not not 5` becomes `a = 1`, as the number is printed. */
  lemma FoldsFirst(d: Decimals)
    requires d.ShowsExactly() && d.parse("5") == Some(5.0)
    ensures Optimized(d, [[Assign("y", Set, Un(Not, Un(Not, Num("5"))))]]) == [[Assign("a", Set, Num(d.show(1.0)))]]
  {
    var e, one := Un(Not, Un(Not, Num("5"))), Num(d.show(1.0));
    var f, g := e => Fold(d, e), e => Invert(e);
    assert Fold(d, Num("5")) == Num("5") && Fold(d, Un(Not, Num("5"))) == Num(d.show(0.0));
    assert Fold(d, e) == one && Invert(one) == one;
    var ss, tt := [Assign("y", Set, e)], [Assign("y", Set, one)];
    assert ss[1..] == [] && tt[1..] == [];
    assert RewriteStmts(f, ss) == tt + [] == tt && RewriteStmts(g, tt) == tt + [] == tt;
    assert FoldCode(d, [ss]) == [tt] && InvertCode([tt]) == [tt];
    assert NameOf(0) == "" && NameOf(1) == NameOf(0) + ['a'] && "y"[0] == 'y' && !IsGlobal("y");
    var n := Short(NO_NAMES, "y").0;
    assert Short(NO_NAMES, "y").1 == "a" && RenameExpr(n, one) == (n, one);
    assert RenameStmt(NO_NAMES, tt[0]).1 == Assign("a", Set, one);
    var n1 := RenameStmt(NO_NAMES, tt[0]).0;
    assert RenameStmts(n1, []) == (n1, []);
    assert RenameStmts(NO_NAMES, tt).1 == [Assign("a", Set, one)] + [];
    var n2 := RenameStmts(NO_NAMES, tt).0;
    var code: Code := [tt];
    assert code[1..] == [] && RenameCode(n2, code[1..]).1 == [];
    assert RenameCode(NO_NAMES, code).1 == [RenameStmts(NO_NAMES, tt).1] + [];
    var last: seq<Stmt> := [Assign("a", Set, one)];
    assert last + [] == last && [last] + [] == [last];
    assert InvertCode(FoldCode(d, [ss])) == code;
  }
}
