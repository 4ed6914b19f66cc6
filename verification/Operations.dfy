/** Values and the operators on them (pkg/vm/operations.go, pkg/vm/variable.go). */
module Operations {
  import opened Ast

  datatype Value = N(num: real) | S(str: string)

  /** The decimal library. What it computes is not part of this model: every theorem holds for
      every choice of these functions, or for every lawful one where that is said. */
  datatype Decimals = Decimals(
    quotient: (real, real) -> real,
    remainder: (real, real) -> real,
    power: (real, real) -> real,
    special: (UnOp, real) -> real,
    intPart: real -> int,
    show: real -> string,
    parse: string -> Option<real>)
  {
    /** Printing this number and reading it back gives the same number. */
    predicate Shown(x: real) {
      parse(show(x)) == Some(x)
    }

    /** Every number that can be written down is printed exactly, and so are the results of operations on them. */
    ghost predicate ShowsExactly() {
      && Shown(0.0) && Shown(1.0)
      && (forall t {:trigger ReadShown(t)} :: ReadShown(t))
      && (forall op, x {:trigger UnaryShown(op, x)} :: UnaryShown(op, x))
      && (forall op, x, y {:trigger BinaryShown(op, x, y)} :: BinaryShown(op, x, y))
    }

    predicate ReadShown(t: string) {
      parse(t).Some? ==> Shown(parse(t).value)
    }

    predicate ResultShown(v: Option<Value>) {
      v.Some? && v.value.N? ==> Shown(v.value.num)
    }

    predicate UnaryShown(op: UnOp, x: real) {
      Shown(x) ==> ResultShown(RunUnary(this, op, N(x)))
    }

    predicate BinaryShown(op: BinOp, x: real, y: real) {
      Shown(x) && Shown(y) ==> ResultShown(RunNumbers(this, op, x, y))
    }

    /** A natural number written in decimal digits is read as that number. */
    ghost predicate ReadsNaturals() {
      forall n: nat :: parse(Itoa(n)).Some? && intPart(parse(Itoa(n)).value) == n
    }
  }

  function Digit(n: nat): char
    requires n < 10
  {
    ['0', '1', '2', '3', '4', '5', '6', '7', '8', '9'][n]
  }

  function Itoa(n: nat): (s: string)
    ensures s != []
  {
    if n < 10 then [Digit(n)] else Itoa(n / 10) + [Digit(n % 10)]
  }

  function AsBool(b: bool): Value {
    if b then N(1.0) else N(0.0)
  }

  function AsString(d: Decimals, v: Value): string {
    match v
    case N(x) => d.show(x)
    case S(s) => s
  }

  function RunUnary(d: Decimals, op: UnOp, v: Value): Option<Value> {
    match v
    case S(_) => None
    case N(x) =>
      match op
      case Neg => Some(N(-x))
      case Not => Some(AsBool(x == 0.0))
      case Abs => Some(N(if x < 0.0 then -x else x))
      case _ => Some(N(d.special(op, x)))
  }

  function RunBinary(d: Decimals, op: BinOp, v: Value, w: Value): Option<Value> {
    if v.N? && w.N? then
      RunNumbers(d, op, v.num, w.num)
    else
      RunStrings(op, AsString(d, v), AsString(d, w))
  }

  function RunNumbers(d: Decimals, op: BinOp, x: real, y: real): Option<Value> {
    match op
    case Add => Some(N(x + y))
    case Sub => Some(N(x - y))
    case Mul => Some(N(x * y))
    case Div => if y == 0.0 then None else Some(N(d.quotient(x, y)))
    case Mod => Some(N(d.remainder(x, y)))
    case Pow => Some(N(d.power(x, y)))
    case Eq => Some(AsBool(x == y))
    case Ne => Some(AsBool(x != y))
    case Ge => Some(AsBool(x >= y))
    case Le => Some(AsBool(x <= y))
    case Gt => Some(AsBool(x > y))
    case Lt => Some(AsBool(x < y))
    case And => Some(AsBool(x != 0.0 && y != 0.0))
    case Or => Some(AsBool(x != 0.0 || y != 0.0))
  }

  function RunStrings(op: BinOp, s: string, t: string): Option<Value> {
    match op
    case Add => Some(S(s + t))
    case Sub => Some(S(RemoveLast(s, t)))
    case Eq => Some(AsBool(s == t))
    case Ne => Some(AsBool(s != t))
    case _ => None
  }

  /** `s` without the last occurrence of `t` in it. */
  function RemoveLast(s: string, t: string): string {
    match LastIndex(s, t, |s|)
    case None => s
    case Some(i) => s[..i] + s[i + |t|..]
  }

  predicate OccursAt(s: string, t: string, k: nat) {
    k + |t| <= |s| && s[k..k + |t|] == t
  }

  /** The last position, at most `upTo`, at which `t` occurs in `s`. */
  function LastIndex(s: string, t: string, upTo: nat): (r: Option<nat>)
    requires upTo <= |s|
    ensures r.Some? ==> r.value <= upTo && OccursAt(s, t, r.value)
    ensures forall k: nat :: k <= upTo && OccursAt(s, t, k) ==> r.Some? && k <= r.value
  {
    if OccursAt(s, t, upTo) then Some(upTo)
    else if upTo == 0 then None
    else LastIndex(s, t, upTo - 1)
  }
}
