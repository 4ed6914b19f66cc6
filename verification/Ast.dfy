/** The YOLOL syntax tree, without source positions and comments, together with the statements
    that NOLOL adds to it (labelled gotos, break, continue). */
module Ast {

  datatype Option<+T> = None | Some(value: T)

  /** How a variable is read: as it is, or with one of the increment operators. */
  datatype Inc = Plain | PreInc | PreDec | PostInc | PostDec

  datatype BinOp = Add | Sub | Mul | Div | Mod | Pow | Eq | Ne | Ge | Le | Gt | Lt | And | Or

  datatype UnOp = Neg | Not | Abs | Sqrt | Sin | Cos | Tan | Asin | Acos | Atan

  datatype Expr =
    | Str(text: string)
    | Num(digits: string)
    | Deref(name: string, inc: Inc)
    | Bin(op: BinOp, left: Expr, right: Expr)
    | Un(uop: UnOp, arg: Expr)

  /** The operators "=", "+=", "-=", "*=", "/=" and "%=". */
  datatype AssignOp = Set | AddTo | SubTo | MulTo | DivTo | ModTo

  /** The name in a labelled goto: the parser only accepts an identifier there. */
  type LabelName = s: string | s != "" witness "l"

  datatype Stmt =
    | Assign(name: string, aop: AssignOp, value: Expr)
    | If(cond: Expr, thn: seq<Stmt>, els: seq<Stmt>)
    | Goto(line: Expr)
    | GotoLabel(target: LabelName)
    | Touch(variable: string, inc: Inc)
    | Break
    | Continue

  /** A line of statements with an optional label ("" stands for no label). `bol` forbids appending
      the line to another one, `eol` forbids appending another one to it. */
  datatype Line = Line(lbl: string, bol: bool, eol: bool, stmts: seq<Stmt>)

  predicate IsComparison(op: BinOp) {
    op in {Eq, Ne, Ge, Le, Gt, Lt}
  }

  predicate IsAndOr(op: BinOp) {
    op == And || op == Or
  }

  function AssignBinOp(aop: AssignOp): BinOp
    requires aop != Set
  {
    match aop
    case AddTo => Add
    case SubTo => Sub
    case MulTo => Mul
    case DivTo => Div
    case ModTo => Mod
  }

  /** A program under conversion: the passes of the compiler replace its lines. */
  class Program {
    var lines: seq<Line>

    constructor (lines: seq<Line>)
      ensures this.lines == lines
    {
      this.lines := lines;
    }
  }
}
