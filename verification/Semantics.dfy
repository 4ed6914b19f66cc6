/** What expressions, statements and lines do when the virtual machine runs them (pkg/vm/vm.go). */
module Semantics {
  import opened Ast
  import opened Operations

  datatype Write = Write(name: string, value: Value)

  /** The variables a program sees, under lower-case names: its own ones, the shared ones (their names
      start with ':'), and the list of all writes performed so far. */
  datatype State = State(locals: map<string, Value>, globals: map<string, Value>, trace: seq<Write>)

  datatype EvalResult = Val(v: Value, st: State) | Err(st: State)

  /** How a list of statements ends: by falling off its end, by a jump, or with a runtime error. */
  datatype Signal = Next | Jump(target: LabelName) | JumpLine(line: LineNr) | Brk | Cont | Fail

  datatype Result = Result(sig: Signal, st: State)

  /** The error handling and the repetition a run is configured with: with `forever` the program starts
      again after its last line, with `resume` a runtime error only ends the line it happens in. */
  datatype Env = Env(d: Decimals, forever: bool, resume: bool)

  const LAST_LINE := 20

  type LineNr = n: int | 1 <= n <= LAST_LINE witness 1

  function LowerChar(c: char): char {
    if 'A' <= c <= 'Z' then c - 'A' + 'a' else c
  }

  function Lower(s: string): (r: string)
    ensures |r| == |s|
    ensures forall i :: 0 <= i < |s| ==> r[i] == LowerChar(s[i])
  {
    seq(|s|, i requires 0 <= i < |s| => LowerChar(s[i]))
  }

  predicate IsGlobal(name: string) {
    |name| > 0 && name[0] == ':'
  }

  function Get(st: State, name: string): Value {
    var key := Lower(name);
    var vars := if IsGlobal(key) then st.globals else st.locals;
    if key in vars then vars[key] else N(0.0)
  }

  function Put(st: State, name: string, v: Value): State {
    var key := Lower(name);
    var trace := st.trace + [Write(key, v)];
    if IsGlobal(key) then State(st.locals, st.globals[key := v], trace)
    else State(st.locals[key := v], st.globals, trace)
  }

  /** The value an increment operator stores, if the operator is applicable. */
  function Stepped(v: Value, up: bool): Option<Value> {
    match v
    case N(x) => Some(N(if up then x + 1.0 else x - 1.0))
    case S(s) =>
      if up then Some(S(s + " "))
      else if |s| == 0 then None
      else Some(S(s[..|s| - 1]))
  }

  function EvalDeref(name: string, inc: Inc, st: State): EvalResult {
    var old_ := Get(st, name);
    if inc == Plain then Val(old_, st)
    else
      match Stepped(old_, inc == PreInc || inc == PostInc)
      case None => Err(st)
      case Some(new_) => Val(if inc == PreInc || inc == PreDec then new_ else old_, Put(st, name, new_))
  }

  /** Both operands of a binary operator are always evaluated, the left one first. */
  function Eval(d: Decimals, e: Expr, st: State): EvalResult {
    match e
    case Str(s) => Val(S(s), st)
    case Num(t) => (match d.parse(t) case None => Err(st) case Some(x) => Val(N(x), st))
    case Deref(name, inc) => EvalDeref(name, inc, st)
    case Bin(op, l, r) =>
      (match Eval(d, l, st)
       case Err(s) => Err(s)
       case Val(v, s) =>
         match Eval(d, r, s)
         case Err(s') => Err(s')
         case Val(w, s') => match RunBinary(d, op, v, w) case None => Err(s') case Some(x) => Val(x, s'))
    case Un(op, a) =>
      (match Eval(d, a, st)
       case Err(s) => Err(s)
       case Val(v, s) => match RunUnary(d, op, v) case None => Err(s) case Some(x) => Val(x, s))
  }

  /** The outcome of evaluating a condition: a condition that is a string is an error. */
  datatype Truth = True(st: State) | False(st: State) | Bad(st: State)

  function EvalCond(d: Decimals, e: Expr, st: State): Truth {
    match Eval(d, e, st)
    case Err(s) => Bad(s)
    case Val(S(_), s) => Bad(s)
    case Val(N(x), s) => if x != 0.0 then True(s) else False(s)
  }

  function Clamp(n: int): LineNr {
    if n < 1 then 1 else if n > LAST_LINE then LAST_LINE else n
  }

  function AssignedExpr(name: string, aop: AssignOp, value: Expr): Expr {
    if aop == Set then value else Bin(AssignBinOp(aop), Deref(name, Plain), value)
  }

  function RunStmt(d: Decimals, s: Stmt, st: State): Result
    decreases s, 1
  {
    match s
    case Assign(name, aop, value) =>
      (match Eval(d, AssignedExpr(name, aop, value), st)
       case Err(s) => Result(Fail, s)
       case Val(v, s) => Result(Next, Put(s, name, v)))
    case If(cond, thn, els) =>
      (match EvalCond(d, cond, st)
       case Bad(s) => Result(Fail, s)
       case True(s) => RunStmts(d, thn, s)
       case False(s) => RunStmts(d, els, s))
    case Goto(e) =>
      (match Eval(d, e, st)
       case Err(s) => Result(Fail, s)
       case Val(S(_), s) => Result(Fail, s)
       case Val(N(x), s) => Result(JumpLine(Clamp(d.intPart(x))), s))
    case GotoLabel(l) => Result(Jump(l), st)
    case Touch(name, inc) =>
      (match EvalDeref(name, inc, st)
       case Err(s) => Result(Fail, s)
       case Val(_, s) => Result(Next, s))
    case Break => Result(Brk, st)
    case Continue => Result(Cont, st)
  }

  function RunStmts(d: Decimals, ss: seq<Stmt>, st: State): Result
    decreases ss, 0
  {
    if ss == [] then Result(Next, st)
    else
      var r := RunStmt(d, ss[0], st);
      if r.sig == Next then RunStmts(d, ss[1..], r.st) else r
  }

  /** Running one list of statements after another is running their concatenation. */
  lemma {:induction false} RunAppend(d: Decimals, a: seq<Stmt>, b: seq<Stmt>, st: State)
    ensures RunStmts(d, a + b, st) ==
            var r := RunStmts(d, a, st);
            if r.sig == Next then RunStmts(d, b, r.st) else r
    decreases |a|
  {
    if a == [] {
      assert a + b == b;
    } else {
      assert (a + b)[0] == a[0] && (a + b)[1..] == a[1..] + b;
      var r := RunStmt(d, a[0], st);
      if r.sig == Next {
        RunAppend(d, a[1..], b, r.st);
      }
    }
  }

  // ---- every computation only appends to the trace ----

  lemma {:induction false} EvalExtends(d: Decimals, e: Expr, st: State)
    ensures st.trace <= Eval(d, e, st).st.trace
  {
    match e
    case Bin(op, l, r) =>
      EvalExtends(d, l, st);
      EvalExtends(d, r, Eval(d, l, st).st);
    case Un(op, a) => EvalExtends(d, a, st);
    case _ =>
  }

  lemma {:induction false} RunStmtExtends(d: Decimals, s: Stmt, st: State)
    ensures st.trace <= RunStmt(d, s, st).st.trace
    decreases s, 1
  {
    match s
    case Assign(name, aop, value) => EvalExtends(d, AssignedExpr(name, aop, value), st);
    case If(cond, thn, els) =>
      EvalExtends(d, cond, st);
      var s' := EvalCond(d, cond, st).st;
      RunStmtsExtends(d, thn, s');
      RunStmtsExtends(d, els, s');
    case Goto(e) => EvalExtends(d, e, st);
    case _ =>
  }

  lemma {:induction false} RunStmtsExtends(d: Decimals, ss: seq<Stmt>, st: State)
    ensures st.trace <= RunStmts(d, ss, st).st.trace
    decreases ss, 0
  {
    if ss != [] {
      RunStmtExtends(d, ss[0], st);
      RunStmtsExtends(d, ss[1..], RunStmt(d, ss[0], st).st);
    }
  }
}
