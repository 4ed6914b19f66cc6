/** The counter behind NOLOL's time() function: a statement at the start of each line that counts the executed lines
    (insertLineCounter in pkg/nolol/converter_builtins.go). */
module LineCounter {
  import opened Ast
  import opened Operations
  import opened Semantics
  import opened Machine
  import opened Printing
  import opened Naming
  import opened Renaming

  const RESERVED_TIME_VARIABLE := ['_', 't', 'i', 'm', 'e']

  /** Every line counts itself first. */
  function Counted(c: string, code: Code): (r: Code)
    ensures |r| == |code|
  {
    seq(|code|, i requires 0 <= i < |code| => [Touch(c, PostInc)] + code[i])
  }

  /** Asks for the counter's short name for each line, and gets the same one each time. */
  method InsertLineCounter(o: VariableNameOptimizer, lines: Code) returns (r: Code)
    requires Lower(RESERVED_TIME_VARIABLE) in o.Table().mapping
    modifies o
    ensures o.Table() == old(o.Table())
    ensures r == Counted(Renamed(o.Table(), RESERVED_TIME_VARIABLE), lines)
  {
    r := [];
    var i := 0;
    while i < |lines|
      invariant 0 <= i <= |lines| && o.Table() == old(o.Table()) && |r| == i
      invariant forall j :: 0 <= j < i ==> r[j] == Counted(Renamed(o.Table(), RESERVED_TIME_VARIABLE), lines)[j]
    {
      var name := o.OptimizeVarName(RESERVED_TIME_VARIABLE);
      r := r + [[Touch(name, PostInc)] + lines[i]];
      i := i + 1;
    }
  }

  // ---- programs that do not write the counter ----

  predicate WritesOther(c: string, e: Expr) {
    match e
    case Deref(x, inc) => inc == Plain || Lower(x) != c
    case Bin(_, l, r) => WritesOther(c, l) && WritesOther(c, r)
    case Un(_, a) => WritesOther(c, a)
    case _ => true
  }

  predicate StmtWritesOther(c: string, s: Stmt)
    decreases s, 1
  {
    match s
    case Assign(x, _, e) => Lower(x) != c && WritesOther(c, e)
    case If(cond, t, e) => WritesOther(c, cond) && StmtsWriteOther(c, t) && StmtsWriteOther(c, e)
    case Goto(e) => WritesOther(c, e)
    case Touch(x, inc) => inc == Plain || Lower(x) != c
    case _ => true
  }

  predicate StmtsWriteOther(c: string, ss: seq<Stmt>)
    decreases ss, 0
  {
    ss == [] || (StmtWritesOther(c, ss[0]) && StmtsWriteOther(c, ss[1..]))
  }

  ghost predicate CodeWritesOther(c: string, code: Code) {
    forall i :: 0 <= i < |code| ==> StmtsWriteOther(c, code[i])
  }

  lemma {:induction false} EvalKeeps(d: Decimals, c: string, e: Expr, st: State)
    requires WritesOther(Lower(c), e)
    ensures Get(Eval(d, e, st).st, c) == Get(st, c)
  {
    match e
    case Bin(_, l, r) =>
      EvalKeeps(d, c, l, st);
      EvalKeeps(d, c, r, Eval(d, l, st).st);
    case Un(_, a) => EvalKeeps(d, c, a, st);
    case _ =>
  }

  lemma {:induction false} StmtKeeps(d: Decimals, c: string, s: Stmt, st: State)
    requires StmtWritesOther(Lower(c), s)
    ensures Get(RunStmt(d, s, st).st, c) == Get(st, c)
    decreases s, 1
  {
    match s
    case Assign(x, aop, e) => EvalKeeps(d, c, AssignedExpr(x, aop, e), st);
    case If(cond, t, e) =>
      EvalKeeps(d, c, cond, st);
      StmtsKeep(d, c, t, EvalCond(d, cond, st).st);
      StmtsKeep(d, c, e, EvalCond(d, cond, st).st);
    case Goto(e) => EvalKeeps(d, c, e, st);
    case _ =>
  }

  lemma {:induction false} StmtsKeep(d: Decimals, c: string, ss: seq<Stmt>, st: State)
    requires StmtsWriteOther(Lower(c), ss)
    ensures Get(RunStmts(d, ss, st).st, c) == Get(st, c)
    decreases ss, 0
  {
    if ss != [] {
      StmtKeeps(d, c, ss[0], st);
      StmtsKeep(d, c, ss[1..], RunStmt(d, ss[0], st).st);
    }
  }

  // ---- counting ----

  /** How many lines are executed in the first `k` steps, including one that is aborted by an error. */
  function Executed(env: Env, code: Code, k: nat, c: Conf): nat {
    if k == 0 then 0
    else (if c.Run? && c.pc < |code| then 1 else 0) + Executed(env, code, k - 1, VmStep(env, code, c))
  }

  lemma LineCounts(d: Decimals, c: string, ss: seq<Stmt>, st: State, n: nat)
    requires StmtsWriteOther(Lower(c), ss) && Get(st, c) == N(n as real)
    ensures Get(RunStmts(d, [Touch(c, PostInc)] + ss, st).st, c) == N((n + 1) as real)
  {
    var st1 := Put(st, c, N(n as real + 1.0));
    assert ([Touch(c, PostInc)] + ss)[1..] == ss;
    assert RunStmt(d, Touch(c, PostInc), st) == Result(Next, st1);
    StmtsKeep(d, c, ss, st1);
  }

  /** In every run, with gotos, aborted lines and starting over, the counter is the number of lines executed so far. */
  lemma {:induction false} CounterCounts(env: Env, c: string, code: Code, k: nat, conf: Conf, n: nat)
    requires CodeWritesOther(Lower(c), code) && Get(conf.st, c) == N(n as real)
    ensures Get(VmSteps(env, Counted(c, code), k, conf).st, c) ==
            N((n + Executed(env, Counted(c, code), k, conf)) as real)
    decreases k
  {
    if k > 0 {
      var next := VmStep(env, Counted(c, code), conf);
      var n' := if conf.Run? && conf.pc < |code| then n + 1 else n;
      if conf.Run? && conf.pc < |code| {
        LineCounts(env.d, c, code[conf.pc], conf.st, n);
      }
      CounterCounts(env, c, code, k - 1, next, n');
    }
  }

  // ---- no variable of the program is the counter ----

  predicate WritesIds(e: Expr) {
    match e
    case Deref(x, inc) => inc == Plain || IsId(x)
    case Bin(_, l, r) => WritesIds(l) && WritesIds(r)
    case Un(_, a) => WritesIds(a)
    case _ => true
  }

  /** Every variable that is written has a name that can stand in a program. */
  predicate StmtWritesIds(s: Stmt)
    decreases s, 1
  {
    match s
    case Assign(x, _, e) => IsId(x) && WritesIds(e)
    case If(c, t, e) => WritesIds(c) && StmtsWriteIds(t) && StmtsWriteIds(e)
    case Goto(e) => WritesIds(e)
    case Touch(x, inc) => inc == Plain || IsId(x)
    case _ => true
  }

  predicate StmtsWriteIds(ss: seq<Stmt>)
    decreases ss, 0
  {
    ss == [] || (StmtWritesIds(ss[0]) && StmtsWriteIds(ss[1..]))
  }

  /** The counter's name cannot be written in a program, so no variable gets the counter's short name. */
  lemma NotTheCounter(n: Names, x: string)
    requires NamesOk(n) && Lower(RESERVED_TIME_VARIABLE) in n.mapping && IsId(x) && Known(n, x)
    ensures Lower(Renamed(n, x)) != Lower(Renamed(n, RESERVED_TIME_VARIABLE))
  {
    var c := RESERVED_TIME_VARIABLE;
    assert c[0] == '_' && Lower(c)[0] == '_';
    assert Lower(x)[0] == LowerChar(x[0]) && x[0] != '_';
    ShortIsKey(n, x);
    ShortIsKey(n, c);
    if !IsGlobal(x) {
      RenamedLocal(n, x, c);
    }
  }

  lemma {:induction false} ExprFree(n: Names, e: Expr)
    requires NamesOk(n) && Lower(RESERVED_TIME_VARIABLE) in n.mapping && WritesIds(e) && KnownExpr(n, e)
    ensures WritesOther(Lower(Renamed(n, RESERVED_TIME_VARIABLE)), MapExpr(n, e))
  {
    match e
    case Deref(x, inc) =>
      if inc != Plain {
        NotTheCounter(n, x);
      }
    case Bin(_, l, r) =>
      ExprFree(n, l);
      ExprFree(n, r);
    case Un(_, a) => ExprFree(n, a);
    case _ =>
  }

  lemma {:induction false} StmtFree(n: Names, s: Stmt)
    requires NamesOk(n) && Lower(RESERVED_TIME_VARIABLE) in n.mapping && StmtWritesIds(s) && KnownStmt(n, s)
    ensures StmtWritesOther(Lower(Renamed(n, RESERVED_TIME_VARIABLE)), MapStmt(n, s))
    decreases s, 1
  {
    match s
    case Assign(x, _, e) =>
      NotTheCounter(n, x);
      ExprFree(n, e);
    case If(c, t, e) =>
      ExprFree(n, c);
      StmtsFree(n, t);
      StmtsFree(n, e);
    case Goto(e) => ExprFree(n, e);
    case Touch(x, inc) =>
      if inc != Plain {
        NotTheCounter(n, x);
      }
    case _ =>
  }

  lemma {:induction false} StmtsFree(n: Names, ss: seq<Stmt>)
    requires NamesOk(n) && Lower(RESERVED_TIME_VARIABLE) in n.mapping && StmtsWriteIds(ss) && KnownStmts(n, ss)
    ensures StmtsWriteOther(Lower(Renamed(n, RESERVED_TIME_VARIABLE)), MapStmts(n, ss))
    decreases ss, 0
  {
    if ss != [] {
      StmtFree(n, ss[0]);
      StmtsFree(n, ss[1..]);
      assert MapStmts(n, ss)[1..] == MapStmts(n, ss[1..]);
    }
  }

  /** In every run of a program with the inserted counter, its value is the number of executed lines: no variable of the
      program is renamed to it. */
  lemma TimeIsExecutedLines(env: Env, n: Names, code: Code, k: nat, globals: map<string, Value>)
    requires NamesOk(n) && Lower(RESERVED_TIME_VARIABLE) in n.mapping
    requires KnownCode(n, code) && forall i :: 0 <= i < |code| ==> StmtsWriteIds(code[i])
    ensures var c := Renamed(n, RESERVED_TIME_VARIABLE);
            var counted := Counted(c, MapCode(n, code));
            var start := Run(0, State(map[], globals, []));
            Get(VmSteps(env, counted, k, start).st, c) == N(Executed(env, counted, k, start) as real)
  {
    var c := Renamed(n, RESERVED_TIME_VARIABLE);
    var start := Run(0, State(map[], globals, []));
    forall i | 0 <= i < |code| ensures StmtsWriteOther(Lower(c), MapCode(n, code)[i]) {
      StmtsFree(n, code[i]);
    }
    assert RESERVED_TIME_VARIABLE[0] == '_';
    ShortIsKey(n, RESERVED_TIME_VARIABLE);
    CounterCounts(env, c, MapCode(n, code), k, start, 0);
  }

  /** The compiler asks for the counter's name first, so it is a single character. */
  lemma CounterNameIsShort()
    ensures Short(NO_NAMES, RESERVED_TIME_VARIABLE).1 == ['a']
  {
    assert RESERVED_TIME_VARIABLE[0] == '_';
    assert NameOf(0) == "";
    assert NameOf(1) == NameOf(0) + ['a'];
  }

  // ---- the counter does not disturb ----

  /** The variable does not occur. */
  predicate FreeExpr(c: string, e: Expr) {
    match e
    case Deref(x, _) => Lower(x) != c
    case Bin(_, l, r) => FreeExpr(c, l) && FreeExpr(c, r)
    case Un(_, a) => FreeExpr(c, a)
    case _ => true
  }

  predicate FreeStmt(c: string, s: Stmt)
    decreases s, 1
  {
    match s
    case Assign(x, _, e) => Lower(x) != c && FreeExpr(c, e)
    case If(cond, t, e) => FreeExpr(c, cond) && FreeStmts(c, t) && FreeStmts(c, e)
    case Goto(e) => FreeExpr(c, e)
    case Touch(x, _) => Lower(x) != c
    case _ => true
  }

  predicate FreeStmts(c: string, ss: seq<Stmt>)
    decreases ss, 0
  {
    ss == [] || (FreeStmt(c, ss[0]) && FreeStmts(c, ss[1..]))
  }

  ghost predicate FreeCode(c: string, code: Code) {
    forall i :: 0 <= i < |code| ==> FreeStmts(c, code[i])
  }

  /** The writes to other variables. */
  function Without(c: string, trace: seq<Write>): seq<Write> {
    if trace == [] then []
    else
      var last := trace[|trace| - 1];
      Without(c, trace[..|trace| - 1]) + if last.name == c then [] else [last]
  }

  lemma WithoutSnoc(c: string, trace: seq<Write>, w: Write)
    ensures Without(c, trace + [w]) == Without(c, trace) + if w.name == c then [] else [w]
  {
    assert (trace + [w])[..|trace|] == trace;
  }

  /** The same variables and writes, apart from those of the counter. */
  ghost predicate SameBut(c: string, st: State, st': State) {
    && st'.globals == st.globals && Without(c, st'.trace) == st.trace
    && forall x {:trigger SameVarBut(c, st.locals, st'.locals, x)} :: SameVarBut(c, st.locals, st'.locals, x)
  }

  ghost predicate SameVarBut(c: string, l: map<string, Value>, l': map<string, Value>, x: string) {
    x != c ==> (x in l <==> x in l') && (x in l ==> l'[x] == l[x])
  }

  lemma LocalsBut(c: string, l: map<string, Value>, l': map<string, Value>, key: string, v: Value, x: string)
    requires SameVarBut(c, l, l', x)
    ensures SameVarBut(c, l[key := v], l'[key := v], x)
    ensures key == c ==> SameVarBut(c, l, l'[key := v], x)
  {
  }

  lemma PutBut(c: string, st: State, st': State, x: string, v: Value)
    requires SameBut(c, st, st') && Lower(x) != c
    ensures SameBut(c, Put(st, x, v), Put(st', x, v)) && Get(st', x) == Get(st, x)
  {
    var key := Lower(x);
    WithoutSnoc(c, st'.trace, Write(key, v));
    assert SameVarBut(c, st.locals, st'.locals, key);
    var a, b := Put(st, x, v), Put(st', x, v);
    forall y ensures SameVarBut(c, a.locals, b.locals, y) {
      assert SameVarBut(c, st.locals, st'.locals, y);
      LocalsBut(c, st.locals, st'.locals, key, v, y);
    }
  }

  ghost predicate SameEvalBut(c: string, r: EvalResult, r': EvalResult) {
    r.Val? == r'.Val? && (r.Val? ==> r'.v == r.v) && SameBut(c, r.st, r'.st)
  }

  lemma DerefBut(c: string, x: string, inc: Inc, st: State, st': State)
    requires SameBut(c, st, st') && Lower(x) != c
    ensures SameEvalBut(c, EvalDeref(x, inc, st), EvalDeref(x, inc, st'))
  {
    forall v {
      PutBut(c, st, st', x, v);
    }
    PutBut(c, st, st', x, N(0.0));
  }

  lemma {:induction false} EvalBut(d: Decimals, c: string, e: Expr, st: State, st': State)
    requires SameBut(c, st, st') && FreeExpr(c, e)
    ensures SameEvalBut(c, Eval(d, e, st), Eval(d, e, st'))
    decreases e
  {
    match e
    case Deref(x, inc) => DerefBut(c, x, inc, st, st');
    case Bin(_, l, r) =>
      EvalBut(d, c, l, st, st');
      EvalBut(d, c, r, Eval(d, l, st).st, Eval(d, l, st').st);
    case Un(_, a) => EvalBut(d, c, a, st, st');
    case _ =>
  }

  ghost predicate SameResultBut(c: string, r: Result, r': Result) {
    r'.sig == r.sig && SameBut(c, r.st, r'.st)
  }

  lemma {:induction false} StmtBut(d: Decimals, c: string, s: Stmt, st: State, st': State)
    requires SameBut(c, st, st') && FreeStmt(c, s)
    ensures SameResultBut(c, RunStmt(d, s, st), RunStmt(d, s, st'))
    decreases s, 1
  {
    match s
    case Assign(x, aop, e) =>
      var e1 := AssignedExpr(x, aop, e);
      EvalBut(d, c, e1, st, st');
      var r, r' := Eval(d, e1, st), Eval(d, e1, st');
      if r.Val? {
        PutBut(c, r.st, r'.st, x, r.v);
      }
    case If(cond, t, e) =>
      EvalBut(d, c, cond, st, st');
      StmtsBut(d, c, t, Eval(d, cond, st).st, Eval(d, cond, st').st);
      StmtsBut(d, c, e, Eval(d, cond, st).st, Eval(d, cond, st').st);
    case Goto(e) => EvalBut(d, c, e, st, st');
    case Touch(x, inc) => DerefBut(c, x, inc, st, st');
    case _ =>
  }

  lemma {:induction false} StmtsBut(d: Decimals, c: string, ss: seq<Stmt>, st: State, st': State)
    requires SameBut(c, st, st') && FreeStmts(c, ss)
    ensures SameResultBut(c, RunStmts(d, ss, st), RunStmts(d, ss, st'))
    decreases ss, 0
  {
    if ss != [] {
      StmtBut(d, c, ss[0], st, st');
      StmtsBut(d, c, ss[1..], RunStmt(d, ss[0], st).st, RunStmt(d, ss[0], st').st);
    }
  }

  /** A counted line does what the line does. */
  lemma LineBut(d: Decimals, c: string, ss: seq<Stmt>, st: State, st': State)
    requires SameBut(c, st, st') && FreeStmts(c, ss) && Lower(c) == c && !IsGlobal(c)
    ensures SameResultBut(c, RunStmts(d, ss, st), RunStmts(d, [Touch(c, PostInc)] + ss, st'))
  {
    var r := RunStmt(d, Touch(c, PostInc), st');
    assert ([Touch(c, PostInc)] + ss)[1..] == ss;
    assert r.sig == Next && exists v :: r.st == Put(st', c, v);
    var v :| r.st == Put(st', c, v);
    WithoutSnoc(c, st'.trace, Write(c, v));
    forall y ensures SameVarBut(c, st.locals, r.st.locals, y) {
      assert SameVarBut(c, st.locals, st'.locals, y);
      LocalsBut(c, st.locals, st'.locals, c, v, y);
    }
    StmtsBut(d, c, ss, st, r.st);
  }

  ghost predicate SameConfBut(c: string, x: Conf, y: Conf) {
    && x.Run? == y.Run? && x.Halt? == y.Halt? && x.Crash? == y.Crash? && (x.Run? ==> y.pc == x.pc)
    && SameBut(c, x.st, y.st)
  }

  /** After any number of steps, the counted program is where the other one is, with the same variables and the same
      writes, apart from those of the counter. */
  lemma {:induction false} CounterDoesNotDisturb(env: Env, c: string, code: Code, k: nat, x: Conf, y: Conf)
    requires FreeCode(c, code) && Lower(c) == c && !IsGlobal(c) && SameConfBut(c, x, y)
    ensures SameConfBut(c, VmSteps(env, code, k, x), VmSteps(env, Counted(c, code), k, y))
    decreases k
  {
    if k > 0 {
      if x.Run? && x.pc < |code| {
        LineBut(env.d, c, code[x.pc], x.st, y.st);
      }
      CounterDoesNotDisturb(env, c, code, k - 1, VmStep(env, code, x), VmStep(env, Counted(c, code), y));
    }
  }
}
