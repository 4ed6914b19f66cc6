/** What the operators, variables and statements of YOLOL compute (pkg/vm/operations.go, pkg/vm/vm.go), as laws that do
    not mention how. */
module Laws {
  import opened Ast
  import opened Operations
  import opened Semantics
  import opened Machine
  import opened Labels

  // ---- numbers ----

  /** The result of an operator on two numbers is the number `z`. */
  predicate Gives(d: Decimals, op: BinOp, x: real, y: real, z: real) {
    RunBinary(d, op, N(x), N(y)) == Some(N(z))
  }

  /** The result of an operator on two numbers is a truth value. */
  predicate Holds(d: Decimals, op: BinOp, x: real, y: real) {
    Gives(d, op, x, y, 1.0)
  }

  /** Sums and differences: adding is a commutative group, and subtracting undoes adding. */
  lemma AddLaws(d: Decimals, x: real, y: real, z: real, s: real, t: real)
    requires Gives(d, Add, x, y, s) && Gives(d, Sub, x, y, t)
    ensures Gives(d, Add, y, x, s) && Gives(d, Add, x, 0.0, x) && Gives(d, Sub, s, y, x) && Gives(d, Add, t, y, x)
    ensures forall u :: Gives(d, Add, s, z, u) ==> exists v :: Gives(d, Add, y, z, v) && Gives(d, Add, x, v, u)
  {
    forall u | Gives(d, Add, s, z, u) ensures exists v :: Gives(d, Add, y, z, v) && Gives(d, Add, x, v, u) {
      assert Gives(d, Add, y, z, y + z) && Gives(d, Add, x, y + z, u);
    }
  }

  /** Products: multiplying is commutative and distributes over adding. */
  lemma MulLaws(d: Decimals, x: real, y: real, z: real, s: real, p: real, q: real)
    requires Gives(d, Mul, x, y, p) && Gives(d, Mul, x, z, q) && Gives(d, Add, y, z, s)
    ensures Gives(d, Mul, y, x, p) && Gives(d, Mul, x, 1.0, x)
    ensures exists r :: Gives(d, Add, p, q, r) && Gives(d, Mul, x, s, r)
  {
    assert s == y + z && p == x * y && q == x * z;
    assert x * s == p + q;
    assert Gives(d, Add, p, q, p + q) && Gives(d, Mul, x, s, p + q);
  }

  /** Sums and products are always numbers. */
  lemma Total(d: Decimals, x: real, y: real)
    ensures exists z :: Gives(d, Add, x, y, z)
    ensures exists z :: Gives(d, Sub, x, y, z)
    ensures exists z :: Gives(d, Mul, x, y, z)
    ensures Gives(d, Sub, 5.0, 3.0, 2.0) && Gives(d, Add, 2.0, 3.0, 5.0) && Gives(d, Mul, 2.0, 3.0, 6.0)
  {
    assert Gives(d, Add, x, y, x + y) && Gives(d, Sub, x, y, x - y) && Gives(d, Mul, x, y, x * y);
  }

  lemma ProductIs(d: Decimals, x: real, y: real)
    ensures Gives(d, Mul, x, y, x * y)
  {
    var v, w := N(x), N(y);
    assert v.num == x && w.num == y && RunBinary(d, Mul, v, w) == RunNumbers(d, Mul, x, y);
  }

  /** Dividing fails exactly for 0, and undoes multiplying if the decimal library's quotients do. */
  lemma DivLaws(d: Decimals, x: real, y: real)
    requires forall a, b {:trigger d.quotient(a, b)} :: b != 0.0 ==> d.quotient(a, b) * b == a
    ensures RunBinary(d, Div, N(x), N(y)).None? <==> y == 0.0
    ensures y != 0.0 ==> exists q :: Gives(d, Div, x, y, q) && Gives(d, Mul, q, y, x)
  {
    if y != 0.0 {
      var q := d.quotient(x, y);
      assert d.quotient(x, y) * y == x;
      ProductIs(d, q, y);
      assert Gives(d, Div, x, y, q) && Gives(d, Mul, q, y, x);
    }
  }

  /** The operands of remainders and powers are in the order of the text. */
  lemma RemainderLaws(d: Decimals, x: real, y: real)
    ensures (forall a, b {:trigger d.remainder(a, b)} :: 0.0 <= a < b ==> d.remainder(a, b) == a) && 0.0 <= x < y ==>
              Gives(d, Mod, x, y, x)
    ensures (forall a {:trigger d.power(a, 1.0)} :: d.power(a, 1.0) == a) ==> Gives(d, Pow, x, 1.0, x)
  {
  }

  /** Roots and angles are those of the library, for the operator that is named. */
  lemma LibraryLaws(d: Decimals, x: real, op: UnOp)
    requires op in {Sqrt, Sin, Cos, Tan, Asin, Acos, Atan}
    ensures RunUnary(d, op, N(x)) == Some(N(d.special(op, x)))
  {
  }

  lemma RootLaws(d: Decimals, x: real)
    requires x >= 0.0
    requires forall a {:trigger d.special(Sqrt, a)} :: a >= 0.0 ==> d.special(Sqrt, a) * d.special(Sqrt, a) == a
    ensures exists r :: RunUnary(d, Sqrt, N(x)) == Some(N(r)) && Gives(d, Mul, r, r, x)
  {
    var r := d.special(Sqrt, x);
    assert RunUnary(d, Sqrt, N(x)) == Some(N(r)) && Gives(d, Mul, r, r, x);
  }

  /** Every comparison says 1 or 0; exactly one of less, equal and greater holds, and the others are their negations. */
  lemma CompareLaws(d: Decimals, x: real, y: real)
    ensures forall op :: IsComparison(op) || IsAndOr(op) ==> Holds(d, op, x, y) || Gives(d, op, x, y, 0.0)
    ensures !Holds(d, Lt, x, x) && Holds(d, Eq, x, x)
    ensures Holds(d, Lt, x, y) <==> Holds(d, Gt, y, x)
    ensures Holds(d, Ge, x, y) <==> !Holds(d, Lt, x, y)
    ensures Holds(d, Le, x, y) <==> !Holds(d, Gt, x, y)
    ensures Holds(d, Ne, x, y) <==> !Holds(d, Eq, x, y)
    ensures Holds(d, Eq, x, y) <==> x == y
    ensures !Holds(d, Eq, x, y) ==> (Holds(d, Lt, x, y) <==> !Holds(d, Lt, y, x))
    ensures forall s :: Gives(d, Add, x, 1.0, s) ==> Holds(d, Lt, x, s)
  {
  }

  lemma LessIsTransitive(d: Decimals, x: real, y: real, z: real)
    requires Holds(d, Lt, x, y) && Holds(d, Lt, y, z)
    ensures Holds(d, Lt, x, z)
  {
  }

  /** Adding the same keeps the order. */
  lemma LessAdds(d: Decimals, x: real, y: real, z: real, s: real, t: real)
    requires Holds(d, Lt, x, y) && Gives(d, Add, x, z, s) && Gives(d, Add, y, z, t)
    ensures Holds(d, Lt, s, t)
  {
  }

  /** Everything but 0 counts as true. */
  lemma LogicLaws(d: Decimals, x: real, y: real)
    ensures Holds(d, And, x, y) <==> x != 0.0 && y != 0.0
    ensures Holds(d, Or, x, y) <==> !(x == 0.0 && y == 0.0)
    ensures RunUnary(d, Not, N(x)) == if Holds(d, Eq, x, 0.0) then Some(N(1.0)) else Some(N(0.0))
  {
  }

  lemma SignLaws(d: Decimals, x: real)
    ensures exists m :: RunUnary(d, Neg, N(x)) == Some(N(m)) && Gives(d, Add, x, m, 0.0)
    ensures exists a :: RunUnary(d, Abs, N(x)) == Some(N(a)) && !Holds(d, Lt, a, 0.0) &&
                        (a == x || Gives(d, Add, x, a, 0.0))
  {
    assert RunUnary(d, Neg, N(x)) == Some(N(0.0 - x)) && Gives(d, Add, x, 0.0 - x, 0.0);
    var a := if x < 0.0 then 0.0 - x else x;
    assert RunUnary(d, Abs, N(x)) == Some(N(a)) && !Holds(d, Lt, a, 0.0);
  }

  // ---- strings ----

  lemma StringLaws(d: Decimals, s: string, t: string, u: string, x: real)
    ensures RunBinary(d, Add, S(s), S(t)) == Some(S(s + t))
    ensures RunBinary(d, Sub, S(s + t), S(t)) == Some(S(s))
    ensures RunBinary(d, Eq, S(s), S(t)) == Some(N(1.0)) <==> s == t
    ensures RunBinary(d, Ne, S(s), S(t)) == Some(N(1.0)) <==> s != t
    ensures RunBinary(d, Eq, S(s), S(t)) in {Some(N(0.0)), Some(N(1.0))}
    ensures RunBinary(d, Ne, S(s), S(t)) in {Some(N(0.0)), Some(N(1.0))}
    ensures forall op :: op !in {Add, Sub, Eq, Ne} ==> RunBinary(d, op, S(s), S(t)).None?
    ensures forall op :: RunUnary(d, op, S(s)).None?
    ensures forall op :: RunBinary(d, op, S(s), N(x)) == RunBinary(d, op, S(s), S(d.show(x)))
    ensures forall op :: RunBinary(d, op, N(x), S(s)) == RunBinary(d, op, S(d.show(x)), S(s))
  {
    assert OccursAt(s + t, t, |s|);
    assert LastIndex(s + t, t, |s + t|) == Some(|s|);
    assert (s + t)[..|s|] + (s + t)[|s| + |t|..] == s;
  }

  /** Subtracting a string takes out its last occurrence. */
  lemma SubtractLast(d: Decimals, s: string, t: string)
    ensures (forall k: nat :: !OccursAt(s, t, k)) ==> RunBinary(d, Sub, S(s), S(t)) == Some(S(s))
    ensures forall k: nat :: OccursAt(s, t, k) && (forall j: nat :: j > k ==> !OccursAt(s, t, j)) ==>
              RunBinary(d, Sub, S(s), S(t)) == Some(S(s[..k] + s[k + |t|..]))
  {
  }

  // ---- variables ----

  /** A variable keeps what was written to it last, under every spelling of its name; others do not change. */
  lemma VariableLaws(st: State, x: string, y: string, v: Value)
    ensures Get(Put(st, x, v), y) == if Lower(x) == Lower(y) then v else Get(st, y)
    ensures Put(st, x, v).trace == st.trace + [Write(Lower(x), v)]
    ensures |x| > 0 && x[0] == ':' ==> Put(st, x, v).locals == st.locals
    ensures |x| == 0 || x[0] != ':' ==> Put(st, x, v).globals == st.globals
    ensures Get(State(map[], map[], []), x) == N(0.0)
  {
  }

  /** `++x` and `--x` yield the new value, `x++` and `x--` the old one. All of them write the new one. */
  lemma IncrementLaws(st: State, name: string, x: real)
    requires Get(st, name) == N(x)
    ensures EvalDeref(name, PreInc, st) == Val(N(x + 1.0), Put(st, name, N(x + 1.0)))
    ensures EvalDeref(name, PostInc, st) == Val(N(x), Put(st, name, N(x + 1.0)))
    ensures EvalDeref(name, PreDec, st) == Val(N(x - 1.0), Put(st, name, N(x - 1.0)))
    ensures EvalDeref(name, PostDec, st) == Val(N(x), Put(st, name, N(x - 1.0)))
    ensures EvalDeref(name, Plain, st) == Val(N(x), st)
  {
  }

  /** Incrementing a string appends a space, decrementing takes the last character off. */
  lemma StringIncrementLaws(st: State, name: string, s: string, c: char)
    ensures Get(st, name) == S(s) ==> EvalDeref(name, PreInc, st) == Val(S(s + " "), Put(st, name, S(s + " ")))
    ensures Get(st, name) == S(s) ==> EvalDeref(name, PostInc, st) == Val(S(s), Put(st, name, S(s + " ")))
    ensures Get(st, name) == S(s + [c]) ==> EvalDeref(name, PreDec, st) == Val(S(s), Put(st, name, S(s)))
    ensures Get(st, name) == S(s + [c]) ==> EvalDeref(name, PostDec, st) == Val(S(s + [c]), Put(st, name, S(s)))
    ensures Get(st, name) == S("") ==> EvalDeref(name, PreDec, st) == EvalDeref(name, PostDec, st) == Err(st)
  {
    assert (s + [c])[..|s + [c]| - 1] == s;
  }

  /** The left operand is evaluated before the right one, and both always are. */
  lemma OrderLaws(d: Decimals, st: State, name: string, x: real)
    requires Get(st, name) == N(x)
    ensures var st' := Put(st, name, N(x + 1.0));
            && Eval(d, Bin(Sub, Deref(name, PostInc), Deref(name, Plain)), st) == Val(N(-1.0), st')
            && Eval(d, Bin(Sub, Deref(name, Plain), Deref(name, PostInc)), st) == Val(N(0.0), st')
            && Eval(d, Bin(And, Str(""), Deref(name, PostInc)), st) == Err(st')
  {
    var st' := Put(st, name, N(x + 1.0));
    VariableLaws(st, name, name, N(x + 1.0));
    assert Eval(d, Deref(name, PostInc), st) == Val(N(x), st');
    assert Eval(d, Deref(name, Plain), st') == Val(N(x + 1.0), st');
  }

  // ---- statements ----

  /** An assignment operator computes with the old value on the left. */
  lemma AssignLaws(d: Decimals, st: State, name: string, e: Expr)
    ensures RunStmt(d, Assign(name, AddTo, e), st) == RunStmt(d, Assign(name, Set, Bin(Add, Deref(name, Plain), e)), st)
    ensures RunStmt(d, Assign(name, SubTo, e), st) == RunStmt(d, Assign(name, Set, Bin(Sub, Deref(name, Plain), e)), st)
    ensures RunStmt(d, Assign(name, MulTo, e), st) == RunStmt(d, Assign(name, Set, Bin(Mul, Deref(name, Plain), e)), st)
    ensures RunStmt(d, Assign(name, DivTo, e), st) == RunStmt(d, Assign(name, Set, Bin(Div, Deref(name, Plain), e)), st)
    ensures RunStmt(d, Assign(name, ModTo, e), st) == RunStmt(d, Assign(name, Set, Bin(Mod, Deref(name, Plain), e)), st)
  {
  }

  lemma SetLaws(d: Decimals, st: State, name: string, e: Expr)
    ensures Eval(d, e, st).Val? ==>
              RunStmt(d, Assign(name, Set, e), st) == Result(Next, Put(Eval(d, e, st).st, name, Eval(d, e, st).v))
    ensures Eval(d, e, st).Err? ==> RunStmt(d, Assign(name, Set, e), st) == Result(Fail, Eval(d, e, st).st)
  {
  }

  /** `if not c then e else t end` is `if c then t else e end`. */
  lemma IfLaws(d: Decimals, st: State, c: Expr, t: seq<Stmt>, e: seq<Stmt>)
    ensures Eval(d, c, st).Val? && Eval(d, c, st).v.N? && Eval(d, c, st).v.num != 0.0 ==>
              RunStmt(d, If(c, t, e), st) == RunStmts(d, t, Eval(d, c, st).st)
    ensures Eval(d, c, st).Val? && Eval(d, c, st).v == N(0.0) ==>
              RunStmt(d, If(c, t, e), st) == RunStmts(d, e, Eval(d, c, st).st)
    ensures Eval(d, c, st).Err? || Eval(d, c, st).v.S? ==>
              RunStmt(d, If(c, t, e), st) == Result(Fail, Eval(d, c, st).st)
    ensures RunStmt(d, If(Un(Not, c), e, t), st) == RunStmt(d, If(c, t, e), st)
  {
  }

  /** A goto to a natural number goes to that line, or to the nearest one of the 20; what follows it is not run. */
  lemma GotoLaws(d: Decimals, st: State, n: nat, rest: seq<Stmt>)
    requires d.ReadsNaturals()
    ensures RunStmts(d, [Goto(Num(Itoa(n)))] + rest, st) ==
            Result(JumpLine(if n == 0 then 1 else if n <= 20 then n else 20), st)
  {
    assert d.parse(Itoa(n)).Some? && d.intPart(d.parse(Itoa(n)).value) == n;
  }

  // ---- errors ----

  predicate GotoFree(s: Stmt)
    decreases s, 1
  {
    match s
    case Goto(_) => false
    case If(_, t, e) => AllGotoFree(t) && AllGotoFree(e)
    case _ => true
  }

  predicate AllGotoFree(ss: seq<Stmt>)
    decreases ss, 0
  {
    ss == [] || (GotoFree(ss[0]) && AllGotoFree(ss[1..]))
  }

  lemma {:induction false} NoJump(d: Decimals, s: Stmt, st: State)
    requires GotoFree(s)
    ensures !RunStmt(d, s, st).sig.JumpLine?
    decreases s, 1
  {
    if s.If? {
      NoJumps(d, s.thn, EvalCond(d, s.cond, st).st);
      NoJumps(d, s.els, EvalCond(d, s.cond, st).st);
    }
  }

  lemma {:induction false} NoJumps(d: Decimals, ss: seq<Stmt>, st: State)
    requires AllGotoFree(ss)
    ensures !RunStmts(d, ss, st).sig.JumpLine?
    decreases ss, 0
  {
    if ss != [] {
      NoJump(d, ss[0], st);
      NoJumps(d, ss[1..], RunStmt(d, ss[0], st).st);
    }
  }

  /** What all lines do when they run in their order, and a failing one is given up where it fails. */
  function AllLines(d: Decimals, code: Code, st: State): State {
    if code == [] then st else AllLines(d, code[1..], RunStmts(d, code[0], st).st)
  }

  /** A machine that goes on after errors runs a program without gotos line by line to its end, whatever fails. */
  lemma {:induction false} ResumedRun(env: Env, code: Code, i: nat, st: State)
    requires env.resume && i <= |code| && forall j :: 0 <= j < |code| ==> AllGotoFree(code[j])
    ensures VmSteps(env, code, |code| - i, Run(i, st)) == Run(|code|, AllLines(env.d, code[i..], st))
    decreases |code| - i
  {
    if i < |code| {
      var r := RunStmts(env.d, code[i], st);
      NoJumps(env.d, code[i], st);
      assert code[i..][1..] == code[i + 1..];
      assert VmStep(env, code, Run(i, st)) == Run(i + 1, r.st);
      ResumedRun(env, code, i + 1, r.st);
    }
  }

  /** Any other machine stops at the first error, with what was written before it. */
  lemma StoppedRun(env: Env, code: Code, i: nat, st: State, n: nat)
    requires !env.resume && i < |code| && RunStmts(env.d, code[i], st).sig == Fail && n > 0
    ensures VmSteps(env, code, n, Run(i, st)) == Crash(RunStmts(env.d, code[i], st).st)
  {
    StaysCrashed(env, code, RunStmts(env.d, code[i], st).st, n - 1);
  }

  lemma {:induction false} StaysCrashed(env: Env, code: Code, st: State, n: nat)
    ensures VmSteps(env, code, n, Crash(st)) == Crash(st)
  {
    if n > 0 {
      StaysCrashed(env, code, st, n - 1);
    }
  }

  /** Behind its last line, a program starts again or is over. */
  lemma EndLaws(env: Env, code: Code, st: State)
    ensures env.forever ==> VmStep(env, code, Run(|code|, st)) == Run(0, st)
    ensures !env.forever ==> VmStep(env, code, Run(|code|, st)) == Halt(st)
  {
  }
}
