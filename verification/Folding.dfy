/** Evaluating constant expressions at compile time (pkg/optimizers/static_expressions.go). */
module Folding {
  import opened Ast
  import opened Operations
  import opened Semantics

  function ConstValue(d: Decimals, e: Expr): Option<Value> {
    match e
    case Str(s) => Some(S(s))
    case Num(t) => (match d.parse(t) case None => None case Some(x) => Some(N(x)))
    case _ => None
  }

  function ToConst(d: Decimals, v: Value): Expr {
    match v
    case N(x) => Num(d.show(x))
    case S(s) => Str(s)
  }

  /** The constant that a single operation on constants stands for. Operations that would fail are kept. */
  function FoldNode(d: Decimals, e: Expr): Option<Expr> {
    var v :=
      match e
      case Un(op, a) => (match ConstValue(d, a) case None => None case Some(v) => RunUnary(d, op, v))
      case Bin(op, l, r) =>
        (match (ConstValue(d, l), ConstValue(d, r))
         case (Some(v), Some(w)) => RunBinary(d, op, v, w)
         case _ => None)
      case _ => None;
    match v
    case None => None
    case Some(x) => Some(ToConst(d, x))
  }

  function Folded(d: Decimals, e: Expr): Expr {
    match FoldNode(d, e)
    case None => e
    case Some(x) => x
  }

  /** Folds all operations, the innermost ones first. */
  function Fold(d: Decimals, e: Expr): Expr {
    match e
    case Bin(op, l, r) => Folded(d, Bin(op, Fold(d, l), Fold(d, r)))
    case Un(op, a) => Folded(d, Un(op, Fold(d, a)))
    case _ => e
  }

  /** Folds the binary operations only, as the NOLOL compiler does everywhere but in loop conditions. */
  function FoldBinary(d: Decimals, e: Expr): Expr {
    match e
    case Bin(op, l, r) => Folded(d, Bin(op, FoldBinary(d, l), FoldBinary(d, r)))
    case Un(op, a) => Un(op, FoldBinary(d, a))
    case _ => e
  }

  /** A constant number is one that is printed exactly. */
  lemma ConstShown(d: Decimals, e: Expr)
    requires d.ShowsExactly() && ConstValue(d, e).Some? && ConstValue(d, e).value.N?
    ensures d.Shown(ConstValue(d, e).value.num)
  {
    assert d.ReadShown(e.digits);
  }

  lemma FoldNodeShown(d: Decimals, e: Expr)
    requires d.ShowsExactly() && FoldNode(d, e).Some?
    ensures forall st :: Eval(d, FoldNode(d, e).value, st) == Eval(d, e, st)
  {
    match e
    case Un(op, a) =>
      var v := ConstValue(d, a).value;
      if v.N? {
        ConstShown(d, a);
        assert d.UnaryShown(op, v.num);
      }
    case Bin(op, l, r) =>
      var v, w := ConstValue(d, l).value, ConstValue(d, r).value;
      if v.N? && w.N? {
        ConstShown(d, l);
        ConstShown(d, r);
        assert d.BinaryShown(op, v.num, w.num);
      }
  }

  lemma FoldedEval(d: Decimals, e: Expr, st: State)
    requires d.ShowsExactly()
    ensures Eval(d, Folded(d, e), st) == Eval(d, e, st)
  {
    if FoldNode(d, e).Some? {
      FoldNodeShown(d, e);
    }
  }

  /** Folding changes neither values nor failures nor effects. */
  lemma {:induction false} FoldEval(d: Decimals, e: Expr, st: State)
    requires d.ShowsExactly()
    ensures Eval(d, Fold(d, e), st) == Eval(d, e, st)
  {
    match e
    case Bin(op, l, r) =>
      FoldEval(d, l, st);
      FoldEval(d, r, Eval(d, l, st).st);
      FoldedEval(d, Bin(op, Fold(d, l), Fold(d, r)), st);
    case Un(op, a) =>
      FoldEval(d, a, st);
      FoldedEval(d, Un(op, Fold(d, a)), st);
    case _ =>
  }

  lemma {:induction false} FoldBinaryEval(d: Decimals, e: Expr, st: State)
    requires d.ShowsExactly()
    ensures Eval(d, FoldBinary(d, e), st) == Eval(d, e, st)
  {
    match e
    case Bin(op, l, r) =>
      FoldBinaryEval(d, l, st);
      FoldBinaryEval(d, r, Eval(d, l, st).st);
      FoldedEval(d, Bin(op, FoldBinary(d, l), FoldBinary(d, r)), st);
    case Un(op, a) => FoldBinaryEval(d, a, st);
    case _ =>
  }

  // ---- how much is folded ----

  predicate IsConstant(e: Expr) {
    e.Str? || e.Num?
  }

  predicate HasVariables(e: Expr) {
    match e
    case Deref(_, _) => true
    case Bin(_, l, r) => HasVariables(l) || HasVariables(r)
    case Un(_, a) => HasVariables(a)
    case _ => false
  }

  /** An expression without variables becomes a constant, unless it fails. */
  lemma {:induction false} FoldsToConstant(d: Decimals, e: Expr, st: State)
    requires d.ShowsExactly() && !HasVariables(e) && Eval(d, e, st).Val?
    ensures IsConstant(Fold(d, e))
  {
    match e
    case Bin(op, l, r) =>
      NoEffects(d, l, st);
      FoldsToConstant(d, l, st);
      FoldsToConstant(d, r, st);
      FoldEval(d, l, st);
      FoldEval(d, r, st);
    case Un(op, a) =>
      FoldsToConstant(d, a, st);
      FoldEval(d, a, st);
    case _ =>
  }

  lemma {:induction false} NoEffects(d: Decimals, e: Expr, st: State)
    requires !HasVariables(e)
    ensures Eval(d, e, st).st == st
  {
    match e
    case Bin(_, l, r) =>
      NoEffects(d, l, st);
      NoEffects(d, r, st);
    case Un(_, a) => NoEffects(d, a, st);
    case _ =>
  }

  /** The values of constants that can be read. */
  predicate Reads(d: Decimals, e: Expr, v: Value) {
    match e
    case Str(s) => v == S(s)
    case Num(t) => v.N? && d.parse(t) == Some(v.num)
    case _ => false
  }

  /** The expression is an operator on constants that does not fail. */
  ghost predicate Computable(d: Decimals, e: Expr) {
    match e
    case Bin(op, l, r) => exists v, w :: Reads(d, l, v) && Reads(d, r, w) && RunBinary(d, op, v, w).Some?
    case Un(op, a) => exists v :: Reads(d, a, v) && RunUnary(d, op, v).Some?
    case _ => false
  }

  /** Nothing in the expression can be computed, among all operators or among the binary ones. */
  ghost predicate NothingLeft(d: Decimals, e: Expr, binaryOnly: bool) {
    && ((e.Bin? || !binaryOnly) ==> !Computable(d, e))
    && match e
       case Bin(_, l, r) => NothingLeft(d, l, binaryOnly) && NothingLeft(d, r, binaryOnly)
       case Un(_, a) => NothingLeft(d, a, binaryOnly)
       case _ => true
  }

  lemma ComputableFolds(d: Decimals, e: Expr)
    ensures Computable(d, e) ==> FoldNode(d, e).Some?
  {
    match e
    case Bin(op, l, r) =>
      if v, w :| Reads(d, l, v) && Reads(d, r, w) && RunBinary(d, op, v, w).Some? {
        assert ConstValue(d, l) == Some(v) && ConstValue(d, r) == Some(w);
      }
    case Un(op, a) =>
      if v :| Reads(d, a, v) && RunUnary(d, op, v).Some? {
        assert ConstValue(d, a) == Some(v);
      }
    case _ =>
  }

  lemma {:induction false} FoldLeavesNothing(d: Decimals, e: Expr)
    ensures NothingLeft(d, Fold(d, e), false)
  {
    match e
    case Bin(op, l, r) =>
      FoldLeavesNothing(d, l);
      FoldLeavesNothing(d, r);
      ComputableFolds(d, Bin(op, Fold(d, l), Fold(d, r)));
    case Un(op, a) =>
      FoldLeavesNothing(d, a);
      ComputableFolds(d, Un(op, Fold(d, a)));
    case _ =>
  }

  lemma {:induction false} FoldBinaryLeavesNothing(d: Decimals, e: Expr)
    ensures NothingLeft(d, FoldBinary(d, e), true)
  {
    match e
    case Bin(op, l, r) =>
      FoldBinaryLeavesNothing(d, l);
      FoldBinaryLeavesNothing(d, r);
      ComputableFolds(d, Bin(op, FoldBinary(d, l), FoldBinary(d, r)));
    case Un(_, a) => FoldBinaryLeavesNothing(d, a);
    case _ =>
  }
}
