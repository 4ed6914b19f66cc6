/** Shortening negated expressions (pkg/optimizers/expression_inversion.go). */
module Inversion {
  import opened Ast
  import opened Operations
  import opened Semantics

  function Inverse(op: BinOp): BinOp
    requires IsComparison(op)
  {
    match op
    case Ge => Lt
    case Le => Gt
    case Lt => Ge
    case Gt => Le
    case Eq => Ne
    case Ne => Eq
  }

  function Dual(op: BinOp): BinOp
    requires IsAndOr(op)
  {
    if op == And then Or else And
  }

  /** One step of moving a negation towards the leaves. */
  function PushDown(e: Expr): Option<Expr> {
    match e
    case Un(Not, Bin(op, l, r)) =>
      if IsComparison(op) then Some(Bin(Inverse(op), l, r))
      else if IsAndOr(op) then Some(Bin(Dual(op), Un(Not, l), Un(Not, r)))
      else None
    case Un(Not, Un(Not, y)) => Some(y)
    case _ => None
  }

  /** Pulling a negation out of both operands of a conjunction or disjunction. */
  function BubbleUp(e: Expr): Option<Expr> {
    match e
    case Bin(op, Un(Not, l), Un(Not, r)) =>
      if IsAndOr(op) then Some(Un(Not, Bin(Dual(op), l, r))) else None
    case _ => None
  }

  function Bubbled(e: Expr): Expr {
    match BubbleUp(e)
    case None => e
    case Some(x) => x
  }

  // ---- why the rewriting ends ----

  /** The number of nodes other than negations. */
  function Others(e: Expr): (n: nat)
    ensures n >= 1
  {
    match e
    case Bin(_, l, r) => 1 + Others(l) + Others(r)
    case Un(op, a) => if op == Not then Others(a) else 1 + Others(a)
    case _ => 1
  }

  /** Every negation counts the nodes beneath it that are not negations. */
  function Weight(e: Expr): nat {
    match e
    case Bin(_, l, r) => Weight(l) + Weight(r)
    case Un(op, a) => Weight(a) + if op == Not then Others(a) else 0
    case _ => 0
  }

  /** Each step of pushing a negation down lessens the weight, although it may add nodes. */
  lemma PushDownLighter(e: Expr)
    requires PushDown(e).Some?
    ensures Weight(PushDown(e).value) < Weight(e)
  {
  }

  /** The result of visiting an expression: negations are pushed down at the root for as long as that is
      possible, then the operands are visited, then a negation is pulled up. */
  function Invert(e: Expr): Expr
    decreases Weight(e), e
  {
    match PushDown(e)
    case Some(e') =>
      PushDownLighter(e);
      Invert(e')
    case None =>
      match e
      case Bin(op, l, r) => Bubbled(Bin(op, Invert(l), Invert(r)))
      case Un(op, a) => Un(op, Invert(a))
      case _ => e
  }

  // ---- what it preserves ----

  /** Conditions that fail in the same cases and otherwise have the same truth value and effects. */
  ghost predicate SameTruth(t: Truth, t': Truth) {
    (t.Bad? <==> t'.Bad?) && (!t.Bad? ==> t' == t)
  }

  /** Evaluations that fail in the same cases and otherwise have the same value and effects. */
  ghost predicate SameValue(r: EvalResult, r': EvalResult) {
    (r.Err? <==> r'.Err?) && (r.Val? ==> r' == r)
  }

  /** The value of the expression, if there is one, is 0 or 1. */
  ghost predicate BoolAt(d: Decimals, e: Expr, st: State) {
    Eval(d, e, st).Val? ==> Eval(d, e, st).v == N(0.0) || Eval(d, e, st).v == N(1.0)
  }

  ghost predicate BoolValued(d: Decimals, e: Expr) {
    forall st :: BoolAt(d, e, st)
  }

  /** The expression may stand where only its truth value matters. */
  ghost predicate FineAsCondition(d: Decimals, e: Expr) {
    match e
    case Bin(op, l, r) =>
      if IsAndOr(op) then FineAsCondition(d, l) && FineAsCondition(d, r)
      else FineAsValue(d, l) && FineAsValue(d, r)
    case Un(op, a) => if op == Not then FineAsCondition(d, a) else FineAsValue(d, a)
    case _ => true
  }

  /** The expression may stand where its value matters: what is negated twice is 0 or 1. */
  ghost predicate FineAsValue(d: Decimals, e: Expr) {
    match e
    case Bin(op, l, r) =>
      if IsAndOr(op) then FineAsCondition(d, l) && FineAsCondition(d, r)
      else FineAsValue(d, l) && FineAsValue(d, r)
    case Un(op, a) =>
      if op == Not then
        match a
        case Un(Not, y) => BoolValued(d, y) && FineAsValue(d, y)
        case _ => FineAsCondition(d, a)
      else FineAsValue(d, a)
    case _ => true
  }

  predicate IsLogical(e: Expr) {
    match e
    case Bin(op, _, _) => IsAndOr(op) || IsComparison(op)
    case Un(op, _) => op == Not
    case _ => false
  }

  /** Comparisons, negations, conjunctions and disjunctions have no other values than 0 and 1. */
  lemma LogicalIsBool(d: Decimals, e: Expr)
    requires IsLogical(e)
    ensures BoolValued(d, e)
  {
  }

  /** A condition that can be read off the expression: what is negated twice where its value matters is a comparison, a
      negation, a conjunction or a disjunction. */
  predicate SafeAsCondition(e: Expr) {
    match e
    case Bin(op, l, r) =>
      if IsAndOr(op) then SafeAsCondition(l) && SafeAsCondition(r) else SafeAsValue(l) && SafeAsValue(r)
    case Un(op, a) => if op == Not then SafeAsCondition(a) else SafeAsValue(a)
    case _ => true
  }

  predicate SafeAsValue(e: Expr) {
    match e
    case Bin(op, l, r) =>
      if IsAndOr(op) then SafeAsCondition(l) && SafeAsCondition(r) else SafeAsValue(l) && SafeAsValue(r)
    case Un(op, a) =>
      if op == Not then
        match a
        case Un(Not, y) => IsLogical(y) && SafeAsValue(y)
        case _ => SafeAsCondition(a)
      else SafeAsValue(a)
    case _ => true
  }

  lemma {:induction false} SafeIsFine(d: Decimals, e: Expr)
    ensures SafeAsCondition(e) ==> FineAsCondition(d, e)
    ensures SafeAsValue(e) ==> FineAsValue(d, e)
  {
    match e
    case Bin(_, l, r) =>
      SafeIsFine(d, l);
      SafeIsFine(d, r);
    case Un(_, a) =>
      SafeIsFine(d, a);
      if a.Un? {
        SafeIsFine(d, a.arg);
        if IsLogical(a.arg) {
          LogicalIsBool(d, a.arg);
        }
      }
    case _ =>
  }

  lemma NotTruth(d: Decimals, a: Expr, st: State)
    ensures var t := EvalCond(d, a, st);
            if t.Bad? then Eval(d, Un(Not, a), st).Err?
            else Eval(d, Un(Not, a), st) == Val(AsBool(t.False?), t.st)
  {
  }

  lemma AndOrTruth(d: Decimals, op: BinOp, l: Expr, r: Expr, st: State)
    requires IsAndOr(op)
    ensures var t := EvalCond(d, l, st);
            var u := EvalCond(d, r, t.st);
            if t.Bad? || u.Bad? then Eval(d, Bin(op, l, r), st).Err?
            else Eval(d, Bin(op, l, r), st) ==
                 Val(AsBool(if op == And then t.True? && u.True? else t.True? || u.True?), u.st)
  {
    if Eval(d, l, st).Val? && Eval(d, r, Eval(d, l, st).st).Val? {
      var v, w := Eval(d, l, st).v, Eval(d, r, Eval(d, l, st).st).v;
      if v.S? || w.S? {
        assert RunBinary(d, op, v, w) == RunStrings(op, AsString(d, v), AsString(d, w));
      }
    }
  }

  lemma InverseComparison(d: Decimals, op: BinOp, l: Expr, r: Expr, st: State)
    requires IsComparison(op)
    ensures SameValue(Eval(d, Un(Not, Bin(op, l, r)), st), Eval(d, Bin(Inverse(op), l, r), st))
  {
  }

  lemma DeMorgan(d: Decimals, op: BinOp, l: Expr, r: Expr, st: State)
    requires IsAndOr(op)
    ensures SameValue(Eval(d, Un(Not, Bin(op, l, r)), st), Eval(d, Bin(Dual(op), Un(Not, l), Un(Not, r)), st))
  {
    AndOrTruth(d, op, l, r, st);
    AndOrTruth(d, Dual(op), Un(Not, l), Un(Not, r), st);
    NotTruth(d, l, st);
    NotTruth(d, r, EvalCond(d, l, st).st);
    NotTruth(d, Bin(op, l, r), st);
  }

  /** `not not y` has the truth value of `y`. */
  lemma DoubleNegationTruth(d: Decimals, y: Expr, st: State)
    ensures SameTruth(EvalCond(d, Un(Not, Un(Not, y)), st), EvalCond(d, y, st))
  {
    NotTruth(d, y, st);
    NotTruth(d, Un(Not, y), st);
  }

  ghost predicate DoubleNegationKept(d: Decimals, y: Expr, st: State) {
    SameValue(Eval(d, Un(Not, Un(Not, y)), st), Eval(d, y, st))
  }

  lemma DoubleNegationAt(d: Decimals, y: Expr, st: State)
    ensures DoubleNegationKept(d, y, st) <==> BoolAt(d, y, st)
  {
    NotTruth(d, y, st);
    NotTruth(d, Un(Not, y), st);
  }

  /** Replacing `not not y` by `y` keeps the value, for all variables, exactly if `y` is 0 or 1. */
  lemma DoubleNegationValue(d: Decimals, y: Expr)
    ensures (forall st :: DoubleNegationKept(d, y, st)) <==> BoolValued(d, y)
  {
    forall st ensures DoubleNegationKept(d, y, st) <==> BoolAt(d, y, st) {
      DoubleNegationAt(d, y, st);
    }
  }

  /** The number 5 negated twice is 1, but is rewritten to 5. */
  lemma DoubleNegationChangesNumber(d: Decimals, st: State)
    requires d.parse("5") == Some(5.0)
    ensures Invert(Un(Not, Un(Not, Num("5")))) == Num("5")
    ensures Eval(d, Un(Not, Un(Not, Num("5"))), st) == Val(N(1.0), st)
    ensures Eval(d, Num("5"), st) == Val(N(5.0), st)
  {
    assert PushDown(Un(Not, Un(Not, Num("5")))) == Some(Num("5"));
    NotTruth(d, Num("5"), st);
    NotTruth(d, Un(Not, Num("5")), st);
  }

  lemma PushDownTruth(d: Decimals, e: Expr, st: State)
    requires PushDown(e).Some? && FineAsCondition(d, e)
    ensures FineAsCondition(d, PushDown(e).value)
    ensures SameTruth(EvalCond(d, e, st), EvalCond(d, PushDown(e).value, st))
  {
    match e.arg
    case Bin(op, l, r) =>
      if IsComparison(op) { InverseComparison(d, op, l, r, st); } else { DeMorgan(d, op, l, r, st); }
    case Un(_, y) => DoubleNegationTruth(d, y, st);
  }

  lemma PushDownValue(d: Decimals, e: Expr, st: State)
    requires PushDown(e).Some? && FineAsValue(d, e)
    ensures FineAsValue(d, PushDown(e).value)
    ensures SameValue(Eval(d, e, st), Eval(d, PushDown(e).value, st))
  {
    match e.arg
    case Bin(op, l, r) =>
      if IsComparison(op) { InverseComparison(d, op, l, r, st); } else { DeMorgan(d, op, l, r, st); }
    case Un(_, y) =>
      assert BoolAt(d, y, st);
      DoubleNegationAt(d, y, st);
  }

  lemma BubbledValue(d: Decimals, e: Expr, st: State)
    ensures SameValue(Eval(d, e, st), Eval(d, Bubbled(e), st))
  {
    match e
    case Bin(op, Un(Not, l), Un(Not, r)) =>
      if IsAndOr(op) {
        DeMorgan(d, Dual(op), l, r, st);
      }
    case _ =>
  }

  /** Operands with the same truth values. */
  lemma AndOrCongruence(d: Decimals, op: BinOp, l: Expr, r: Expr, l': Expr, r': Expr, st: State)
    requires IsAndOr(op)
    requires SameTruth(EvalCond(d, l, st), EvalCond(d, l', st))
    requires SameTruth(EvalCond(d, r, EvalCond(d, l, st).st), EvalCond(d, r', EvalCond(d, l, st).st))
    ensures SameValue(Eval(d, Bin(op, l, r), st), Eval(d, Bin(op, l', r'), st))
  {
    AndOrTruth(d, op, l, r, st);
    AndOrTruth(d, op, l', r', st);
  }

  /** In a value position, rewriting keeps the value, the failures, and the effects of a success. */
  lemma {:induction false} InvertValue(d: Decimals, e: Expr, st: State)
    requires FineAsValue(d, e)
    ensures SameValue(Eval(d, e, st), Eval(d, Invert(e), st))
    decreases Weight(e), e, 1
  {
    match PushDown(e)
    case Some(e') =>
      PushDownLighter(e);
      PushDownValue(d, e, st);
      InvertValue(d, e', st);
    case None =>
      match e
      case Bin(op, l, r) => InvertOperands(d, op, l, r, st);
      case Un(op, a) =>
        if op == Not {
          InvertCondition(d, a, st);
          NotTruth(d, a, st);
          NotTruth(d, Invert(a), st);
        } else {
          InvertValue(d, a, st);
        }
      case _ =>
  }

  lemma {:induction false} InvertOperands(d: Decimals, op: BinOp, l: Expr, r: Expr, st: State)
    requires FineAsValue(d, Bin(op, l, r))
    ensures SameValue(Eval(d, Bin(op, l, r), st), Eval(d, Bubbled(Bin(op, Invert(l), Invert(r))), st))
    decreases Weight(l) + Weight(r), Bin(op, l, r), 0
  {
    if IsAndOr(op) {
      InvertCondition(d, l, st);
      InvertCondition(d, r, EvalCond(d, l, st).st);
      AndOrCongruence(d, op, l, r, Invert(l), Invert(r), st);
    } else {
      InvertValue(d, l, st);
      InvertValue(d, r, Eval(d, l, st).st);
    }
    BubbledValue(d, Bin(op, Invert(l), Invert(r)), st);
  }

  /** In a boolean position, rewriting keeps the truth value, the failures, and the effects of a success. */
  lemma {:induction false} InvertCondition(d: Decimals, e: Expr, st: State)
    requires FineAsCondition(d, e)
    ensures SameTruth(EvalCond(d, e, st), EvalCond(d, Invert(e), st))
    decreases Weight(e), e, 2
  {
    match PushDown(e)
    case Some(e') =>
      PushDownLighter(e);
      PushDownTruth(d, e, st);
      InvertCondition(d, e', st);
    case None =>
      match e
      case Un(Not, a) =>
        InvertCondition(d, a, st);
        NotTruth(d, a, st);
        NotTruth(d, Invert(a), st);
      case _ =>
        assert FineAsValue(d, e);
        InvertValue(d, e, st);
  }

  // ---- how much is rewritten ----

  predicate IsNot(e: Expr) {
    e.Un? && e.uop == Not
  }

  /** No comparison and no negation is negated, and no conjunction or disjunction has two negated operands. */
  predicate Inverted(e: Expr) {
    match e
    case Bin(op, l, r) => Inverted(l) && Inverted(r) && !(IsAndOr(op) && IsNot(l) && IsNot(r))
    case Un(op, a) => Inverted(a) && (op == Not ==> !IsNot(a) && !(a.Bin? && IsComparison(a.op)))
    case _ => true
  }

  lemma BubbledInverted(e: Expr)
    requires e.Bin? && Inverted(e.left) && Inverted(e.right)
    ensures Inverted(Bubbled(e)) && (!IsAndOr(e.op) ==> Bubbled(e) == e)
  {
  }

  /** Nothing is left to be rewritten. */
  lemma {:induction false} InvertNormal(e: Expr)
    ensures Inverted(Invert(e))
    decreases Weight(e), e
  {
    match PushDown(e)
    case Some(e') =>
      PushDownLighter(e);
      InvertNormal(e');
    case None =>
      match e
      case Bin(op, l, r) =>
        InvertNormal(l);
        InvertNormal(r);
        BubbledInverted(Bin(op, Invert(l), Invert(r)));
      case Un(op, a) =>
        InvertNormal(a);
        if op == Not {
          InvertKeepsKind(a);
        }
      case _ =>
  }

  /** What may stay negated is neither a negation nor a comparison afterwards. */
  lemma InvertKeepsKind(a: Expr)
    requires PushDown(Un(Not, a)).None?
    ensures !IsNot(Invert(a)) && !(Invert(a).Bin? && IsComparison(Invert(a).op))
  {
    assert PushDown(a).None?;
  }

  /** Every variable, constant and operand stays in its place: the leaves are the same, from left to right. */
  lemma {:induction false} InvertLeaves(e: Expr)
    ensures Leaves(Invert(e)) == Leaves(e)
    decreases Weight(e), e
  {
    match PushDown(e)
    case Some(e') =>
      PushDownLighter(e);
      InvertLeaves(e');
    case None =>
      match e
      case Bin(op, l, r) =>
        InvertLeaves(l);
        InvertLeaves(r);
      case Un(op, a) => InvertLeaves(a);
      case _ =>
  }

  function Leaves(e: Expr): seq<Expr> {
    match e
    case Bin(_, l, r) => Leaves(l) + Leaves(r)
    case Un(_, a) => Leaves(a)
    case _ => [e]
  }
}
