/** Renaming the variables of a whole program, and what that does to its runs (pkg/optimizers/variable_names.go). */
module Renaming {
  import opened Ast
  import opened Operations
  import opened Semantics
  import opened Machine
  import opened Naming

  // ---- the traversal: names are given in the order in which they are met ----

  function RenameExpr(n: Names, e: Expr): (Names, Expr)
    decreases e
  {
    match e
    case Deref(x, inc) =>
      var (n1, y) := Short(n, x);
      (n1, Deref(y, inc))
    case Bin(op, l, r) =>
      var (n1, l') := RenameExpr(n, l);
      var (n2, r') := RenameExpr(n1, r);
      (n2, Bin(op, l', r'))
    case Un(op, a) =>
      var (n1, a') := RenameExpr(n, a);
      (n1, Un(op, a'))
    case _ => (n, e)
  }

  function RenameStmt(n: Names, s: Stmt): (Names, Stmt)
    decreases s, 1
  {
    match s
    case Assign(x, aop, e) =>
      var (n1, y) := Short(n, x);
      var (n2, e') := RenameExpr(n1, e);
      (n2, Assign(y, aop, e'))
    case If(c, t, e) =>
      var (n1, c') := RenameExpr(n, c);
      var (n2, t') := RenameStmts(n1, t);
      var (n3, e') := RenameStmts(n2, e);
      (n3, If(c', t', e'))
    case Goto(e) =>
      var (n1, e') := RenameExpr(n, e);
      (n1, Goto(e'))
    case Touch(x, inc) =>
      var (n1, y) := Short(n, x);
      (n1, Touch(y, inc))
    case _ => (n, s)
  }

  function RenameStmts(n: Names, ss: seq<Stmt>): (Names, seq<Stmt>)
    decreases ss, 0
  {
    if ss == [] then (n, [])
    else
      var (n1, s) := RenameStmt(n, ss[0]);
      var (n2, rest) := RenameStmts(n1, ss[1..]);
      (n2, [s] + rest)
  }

  function RenameCode(n: Names, code: Code): (Names, Code)
    decreases |code|
  {
    if code == [] then (n, [])
    else
      var (n1, line) := RenameStmts(n, code[0]);
      var (n2, rest) := RenameCode(n1, code[1..]);
      (n2, [line] + rest)
  }

  // ---- the same with a fixed table ----

  function MapExpr(n: Names, e: Expr): Expr {
    match e
    case Deref(x, inc) => Deref(Renamed(n, x), inc)
    case Bin(op, l, r) => Bin(op, MapExpr(n, l), MapExpr(n, r))
    case Un(op, a) => Un(op, MapExpr(n, a))
    case _ => e
  }

  function MapStmt(n: Names, s: Stmt): Stmt
    decreases s, 1
  {
    match s
    case Assign(x, aop, e) => Assign(Renamed(n, x), aop, MapExpr(n, e))
    case If(c, t, e) => If(MapExpr(n, c), MapStmts(n, t), MapStmts(n, e))
    case Goto(e) => Goto(MapExpr(n, e))
    case Touch(x, inc) => Touch(Renamed(n, x), inc)
    case _ => s
  }

  function MapStmts(n: Names, ss: seq<Stmt>): seq<Stmt>
    decreases ss, 0
  {
    if ss == [] then [] else [MapStmt(n, ss[0])] + MapStmts(n, ss[1..])
  }

  function MapCode(n: Names, code: Code): (r: Code)
    ensures |r| == |code|
  {
    seq(|code|, i requires 0 <= i < |code| => MapStmts(n, code[i]))
  }

  // ---- the table knows all variables ----

  predicate Known(n: Names, x: string) {
    IsGlobal(x) || Lower(x) in n.mapping
  }

  predicate KnownExpr(n: Names, e: Expr) {
    match e
    case Deref(x, _) => Known(n, x)
    case Bin(_, l, r) => KnownExpr(n, l) && KnownExpr(n, r)
    case Un(_, a) => KnownExpr(n, a)
    case _ => true
  }

  predicate KnownStmt(n: Names, s: Stmt)
    decreases s, 1
  {
    match s
    case Assign(x, _, e) => Known(n, x) && KnownExpr(n, e)
    case If(c, t, e) => KnownExpr(n, c) && KnownStmts(n, t) && KnownStmts(n, e)
    case Goto(e) => KnownExpr(n, e)
    case Touch(x, _) => Known(n, x)
    case _ => true
  }

  predicate KnownStmts(n: Names, ss: seq<Stmt>)
    decreases ss, 0
  {
    ss == [] || (KnownStmt(n, ss[0]) && KnownStmts(n, ss[1..]))
  }

  ghost predicate KnownCode(n: Names, code: Code) {
    forall i :: 0 <= i < |code| ==> KnownStmts(n, code[i])
  }


  lemma ShortMapped(a: Names, x: string, z: Names)
    requires NamesOk(a) && Extends(Short(a, x).0, z)
    ensures NamesOk(Short(a, x).0) && Extends(a, z) && Short(a, x).1 == Renamed(z, x) && Known(z, x)
  {
    ShortOk(a, x);
  }

  /** The answers given on the way agree with every later table. */
  lemma {:induction false} ExprMapped(a: Names, e: Expr, z: Names)
    requires NamesOk(a) && Extends(RenameExpr(a, e).0, z)
    ensures NamesOk(RenameExpr(a, e).0) && Extends(a, z) && RenameExpr(a, e).1 == MapExpr(z, e) && KnownExpr(z, e)
    decreases e
  {
    match e
    case Deref(x, _) => ShortMapped(a, x, z);
    case Bin(_, l, r) =>
      ExprKeeps(a, l);
      ExprMapped(RenameExpr(a, l).0, r, z);
      ExprMapped(a, l, z);
    case Un(_, arg) => ExprMapped(a, arg, z);
    case _ =>
  }

  lemma {:induction false} ExprKeeps(a: Names, e: Expr)
    requires NamesOk(a)
    ensures NamesOk(RenameExpr(a, e).0)
    decreases e
  {
    match e
    case Deref(x, _) => ShortOk(a, x);
    case Bin(_, l, r) =>
      ExprKeeps(a, l);
      ExprKeeps(RenameExpr(a, l).0, r);
    case Un(_, arg) => ExprKeeps(a, arg);
    case _ =>
  }

  lemma {:induction false} StmtKeeps(a: Names, s: Stmt)
    requires NamesOk(a)
    ensures NamesOk(RenameStmt(a, s).0)
    decreases s, 1
  {
    match s
    case Assign(x, _, e) =>
      ShortOk(a, x);
      ExprKeeps(Short(a, x).0, e);
    case If(c, t, e) =>
      ExprKeeps(a, c);
      var n1 := RenameExpr(a, c).0;
      StmtsKeep(n1, t);
      StmtsKeep(RenameStmts(n1, t).0, e);
    case Goto(e) => ExprKeeps(a, e);
    case Touch(x, _) => ShortOk(a, x);
    case _ =>
  }

  lemma {:induction false} StmtsKeep(a: Names, ss: seq<Stmt>)
    requires NamesOk(a)
    ensures NamesOk(RenameStmts(a, ss).0)
    decreases ss, 0
  {
    if ss != [] {
      StmtKeeps(a, ss[0]);
      StmtsKeep(RenameStmt(a, ss[0]).0, ss[1..]);
    }
  }

  lemma {:induction false} StmtMapped(a: Names, s: Stmt, z: Names)
    requires NamesOk(a) && Extends(RenameStmt(a, s).0, z)
    ensures Extends(a, z) && RenameStmt(a, s).1 == MapStmt(z, s) && KnownStmt(z, s)
    decreases s, 1
  {
    match s
    case Assign(x, _, e) =>
      ShortOk(a, x);
      ExprMapped(Short(a, x).0, e, z);
      ShortMapped(a, x, z);
    case If(c, t, e) =>
      var n1 := RenameExpr(a, c).0;
      ExprKeeps(a, c);
      StmtsKeep(n1, t);
      StmtsMapped(RenameStmts(n1, t).0, e, z);
      StmtsMapped(n1, t, z);
      ExprMapped(a, c, z);
    case Goto(e) => ExprMapped(a, e, z);
    case Touch(x, _) => ShortMapped(a, x, z);
    case _ =>
  }

  lemma {:induction false} StmtsMapped(a: Names, ss: seq<Stmt>, z: Names)
    requires NamesOk(a) && Extends(RenameStmts(a, ss).0, z)
    ensures Extends(a, z) && RenameStmts(a, ss).1 == MapStmts(z, ss) && KnownStmts(z, ss)
    decreases ss, 0
  {
    if ss != [] {
      StmtKeeps(a, ss[0]);
      StmtsMapped(RenameStmt(a, ss[0]).0, ss[1..], z);
      StmtMapped(a, ss[0], z);
    }
  }

  lemma {:induction false} CodeKeeps(a: Names, code: Code)
    requires NamesOk(a)
    ensures NamesOk(RenameCode(a, code).0)
    decreases |code|
  {
    if code != [] {
      StmtsKeep(a, code[0]);
      CodeKeeps(RenameStmts(a, code[0]).0, code[1..]);
    }
  }

  lemma {:induction false} CodeMapped(a: Names, code: Code, z: Names)
    requires NamesOk(a) && Extends(RenameCode(a, code).0, z)
    ensures Extends(a, z) && RenameCode(a, code).1 == MapCode(z, code) && KnownCode(z, code)
    decreases |code|
  {
    if code != [] {
      StmtsKeep(a, code[0]);
      var n1 := RenameStmts(a, code[0]).0;
      CodeMapped(n1, code[1..], z);
      StmtsMapped(a, code[0], z);
      assert MapCode(z, code) == [MapStmts(z, code[0])] + MapCode(z, code[1..]);
    }
  }

  // ---- runs ----

  /** Variable `key` has the same value under its short name. */
  ghost predicate SameVar(n: Names, l: map<string, Value>, l': map<string, Value>, key: string) {
    if key in n.mapping then (key in l <==> n.mapping[key] in l') && (key in l ==> l'[n.mapping[key]] == l[key])
    else key !in l
  }

  ghost predicate SameWrite(n: Names, w: Write, w': Write) {
    w' == Write(Renamed(n, w.name), w.value)
  }

  /** The same variables, when the local ones are known by their short names, and the same writes. */
  ghost predicate SameVars(n: Names, st: State, st': State) {
    && st'.globals == st.globals
    && (forall key {:trigger SameVar(n, st.locals, st'.locals, key)} :: SameVar(n, st.locals, st'.locals, key))
    && |st'.trace| == |st.trace|
    && (forall i {:trigger SameWrite(n, st.trace[i], st'.trace[i])} ::
         0 <= i < |st.trace| ==> SameWrite(n, st.trace[i], st'.trace[i]))
  }

  /** Short names are lower-case, and belong to local variables. */
  lemma ShortIsKey(n: Names, x: string)
    requires NamesOk(n) && Known(n, x)
    ensures Lower(Renamed(n, x)) == Renamed(n, Lower(x))
    ensures IsGlobal(Lower(Renamed(n, x))) == IsGlobal(Lower(x)) == IsGlobal(x)
    ensures !IsGlobal(x) ==> Lower(Renamed(n, x)) == n.mapping[Lower(x)]
    ensures IsGlobal(x) ==> Renamed(n, x) == x
  {
    assert Lower(Lower(x)) == Lower(x);
    if !IsGlobal(x) {
      RenamedLocal(n, x, x);
      var s := n.mapping[Lower(x)];
      assert Lower(s) == s;
    }
  }

  lemma SameGet(n: Names, st: State, st': State, x: string)
    requires NamesOk(n) && Known(n, x) && SameVars(n, st, st')
    ensures Get(st', Renamed(n, x)) == Get(st, x)
  {
    ShortIsKey(n, x);
    assert SameVar(n, st.locals, st'.locals, Lower(x));
  }

  lemma SamePut(n: Names, st: State, st': State, x: string, v: Value)
    requires NamesOk(n) && Known(n, x) && SameVars(n, st, st')
    ensures SameVars(n, Put(st, x, v), Put(st', Renamed(n, x), v))
  {
    ShortIsKey(n, x);
    var a, b := Put(st, x, v), Put(st', Renamed(n, x), v);
    forall i | 0 <= i < |a.trace| ensures SameWrite(n, a.trace[i], b.trace[i]) {
      if i < |st.trace| {
        assert SameWrite(n, st.trace[i], st'.trace[i]);
      }
    }
    forall key ensures SameVar(n, a.locals, b.locals, key) {
      assert SameVar(n, st.locals, st'.locals, key);
      if !IsGlobal(x) && key in n.mapping {
        OtherName(n, key, Lower(x));
      }
    }
  }

  lemma OtherName(n: Names, a: string, b: string)
    requires NamesOk(n) && a in n.mapping && b in n.mapping
    ensures n.mapping[a] == n.mapping[b] <==> a == b
  {
    assert WayBack(n, a) && WayBack(n, b);
  }

  ghost predicate SameEval(n: Names, r: EvalResult, r': EvalResult) {
    (r.Val? <==> r'.Val?) && (r.Val? ==> r'.v == r.v) && SameVars(n, r.st, r'.st)
  }

  lemma DerefRenamed(n: Names, x: string, inc: Inc, st: State, st': State)
    requires NamesOk(n) && Known(n, x) && SameVars(n, st, st')
    ensures SameEval(n, EvalDeref(x, inc, st), EvalDeref(Renamed(n, x), inc, st'))
  {
    SameGet(n, st, st', x);
    forall v {
      SamePut(n, st, st', x, v);
    }
  }

  lemma {:induction false} EvalRenamed(d: Decimals, n: Names, e: Expr, st: State, st': State)
    requires NamesOk(n) && KnownExpr(n, e) && SameVars(n, st, st')
    ensures SameEval(n, Eval(d, e, st), Eval(d, MapExpr(n, e), st'))
  {
    match e
    case Deref(x, inc) => DerefRenamed(n, x, inc, st, st');
    case Bin(op, l, r) =>
      EvalRenamed(d, n, l, st, st');
      EvalRenamed(d, n, r, Eval(d, l, st).st, Eval(d, MapExpr(n, l), st').st);
    case Un(op, a) => EvalRenamed(d, n, a, st, st');
    case _ =>
  }

  ghost predicate SameEnd(n: Names, r: Result, r': Result) {
    r'.sig == r.sig && SameVars(n, r.st, r'.st)
  }

  lemma {:induction false} StmtRenamed(d: Decimals, n: Names, s: Stmt, st: State, st': State)
    requires NamesOk(n) && KnownStmt(n, s) && SameVars(n, st, st')
    ensures SameEnd(n, RunStmt(d, s, st), RunStmt(d, MapStmt(n, s), st'))
    decreases s, 1
  {
    match s
    case Assign(x, aop, e) =>
      var e1 := AssignedExpr(x, aop, e);
      assert MapExpr(n, e1) == AssignedExpr(Renamed(n, x), aop, MapExpr(n, e));
      EvalRenamed(d, n, e1, st, st');
      var r, r' := Eval(d, e1, st), Eval(d, MapExpr(n, e1), st');
      if r.Val? {
        SamePut(n, r.st, r'.st, x, r.v);
      }
    case If(c, t, e) =>
      EvalRenamed(d, n, c, st, st');
      var s1, s1' := Eval(d, c, st).st, Eval(d, MapExpr(n, c), st').st;
      StmtsRenamed(d, n, t, s1, s1');
      StmtsRenamed(d, n, e, s1, s1');
    case Goto(e) => EvalRenamed(d, n, e, st, st');
    case Touch(x, inc) => DerefRenamed(n, x, inc, st, st');
    case _ =>
  }

  lemma {:induction false} StmtsRenamed(d: Decimals, n: Names, ss: seq<Stmt>, st: State, st': State)
    requires NamesOk(n) && KnownStmts(n, ss) && SameVars(n, st, st')
    ensures SameEnd(n, RunStmts(d, ss, st), RunStmts(d, MapStmts(n, ss), st'))
    decreases ss, 0
  {
    if ss != [] {
      StmtRenamed(d, n, ss[0], st, st');
      StmtsRenamed(d, n, ss[1..], RunStmt(d, ss[0], st).st, RunStmt(d, MapStmt(n, ss[0]), st').st);
      assert MapStmts(n, ss)[1..] == MapStmts(n, ss[1..]);
    }
  }

  /** The same line, with the same variables up to their names. */
  ghost predicate SameConf(n: Names, c: Conf, c': Conf) {
    match c
    case Run(pc, st) => c'.Run? && c'.pc == pc && SameVars(n, st, c'.st)
    case Halt(st) => c'.Halt? && SameVars(n, st, c'.st)
    case Crash(st) => c'.Crash? && SameVars(n, st, c'.st)
  }

  lemma StepRenamed(env: Env, n: Names, code: Code, c: Conf, c': Conf)
    requires NamesOk(n) && KnownCode(n, code) && SameConf(n, c, c')
    ensures SameConf(n, VmStep(env, code, c), VmStep(env, MapCode(n, code), c'))
  {
    if c.Run? && c.pc < |code| {
      StmtsRenamed(env.d, n, code[c.pc], c.st, c'.st);
    }
  }

  lemma {:induction false} StepsRenamed(env: Env, n: Names, code: Code, k: nat, c: Conf, c': Conf)
    requires NamesOk(n) && KnownCode(n, code) && SameConf(n, c, c')
    ensures SameConf(n, VmSteps(env, code, k, c), VmSteps(env, MapCode(n, code), k, c'))
    decreases k
  {
    if k > 0 {
      StepRenamed(env, n, code, c, c');
      StepsRenamed(env, n, code, k - 1, VmStep(env, code, c), VmStep(env, MapCode(n, code), c'));
    }
  }

  lemma StartsSame(n: Names, globals: map<string, Value>)
    ensures SameVars(n, State(map[], globals, []), State(map[], globals, []))
  {
  }

  /** Renaming changes nothing but the names: after any number of lines, whether errors happen or not. */
  lemma RenamingExact(env: Env, code: Code, globals: map<string, Value>, k: nat)
    ensures var (n, code') := RenameCode(NO_NAMES, code);
            var start := Run(0, State(map[], globals, []));
            NamesOk(n) && SameConf(n, VmSteps(env, code, k, start), VmSteps(env, code', k, start))
  {
    var n := RenameCode(NO_NAMES, code).0;
    assert NamesOk(NO_NAMES);
    CodeKeeps(NO_NAMES, code);
    CodeMapped(NO_NAMES, code, n);
    StartsSame(n, globals);
    StepsRenamed(env, n, code, k, Run(0, State(map[], globals, [])), Run(0, State(map[], globals, [])));
  }
}
