/** Printing expressions (pkg/parser/printer.go), and reading the printed text back as tokens. */
module Printing {
  import opened Ast
  import opened Semantics
  import opened Lexing

  /** In the compact mode optional spaces are left out. */
  datatype Mode = Readable | Compact

  /** What is printed: a token, or a space that is not repeated. */
  datatype Piece = T(token: Token) | Space

  function OpText(op: BinOp): string {
    match op
    case Add => "+" case Sub => "-" case Mul => "*" case Div => "/" case Mod => "%" case Pow => "^"
    case Eq => "==" case Ne => "!=" case Ge => ">=" case Le => "<=" case Gt => ">" case Lt => "<"
    case And => "and" case Or => "or"
  }

  function UnText(op: UnOp): string {
    match op
    case Neg => "-" case Not => "not" case Abs => "abs" case Sqrt => "sqrt" case Sin => "sin" case Cos => "cos"
    case Tan => "tan" case Asin => "asin" case Acos => "acos" case Atan => "atan"
  }

  /** How tightly an operator binds. */
  function Priority(op: BinOp): nat {
    match op
    case And => 0 case Or => 0
    case Add => 2 case Sub => 2
    case Mul => 3 case Div => 3 case Mod => 3 case Pow => 3
    case _ => 1
  }

  function PriorityOf(e: Expr): nat {
    match e
    case Bin(op, _, _) => Priority(op)
    case _ => 10
  }

  function OpToken(op: BinOp): Token {
    if IsAndOr(op) then Keyword(OpText(op)) else Symbol(OpText(op))
  }

  function UnToken(op: UnOp): Token {
    if op == Neg then Symbol("-") else Keyword(UnText(op))
  }

  function IncToken(inc: Inc): Token
    requires inc != Plain
  {
    if inc == PreInc || inc == PostInc then Symbol("++") else Symbol("--")
  }

  /** Whether the left and the right operand are put in brackets. */
  predicate LeftBrackets(op: BinOp, l: Expr) {
    PriorityOf(l) < Priority(op)
  }

  predicate RightBrackets(op: BinOp, r: Expr) {
    r.Bin? && PriorityOf(r) <= Priority(op)
  }

  predicate Negative(t: string) {
    |t| > 0 && t[0] == '-'
  }

  function Optional(mode: Mode): seq<Piece> {
    if mode == Readable then [Space] else []
  }

  function Bracketed(yes: bool, ps: seq<Piece>): seq<Piece> {
    if yes then [T(Symbol("("))] + ps + [T(Symbol(")"))] else ps
  }

  function OpPieces(mode: Mode, op: BinOp): seq<Piece> {
    if IsAndOr(op) then [Space, T(OpToken(op)), Space] else Optional(mode) + [T(OpToken(op))] + Optional(mode)
  }

  function UnPieces(op: UnOp): seq<Piece> {
    if op == Neg then [Space, T(UnToken(op))] else [T(UnToken(op)), Space]
  }

  /** The pieces of an expression. */
  function Pieces(mode: Mode, e: Expr): seq<Piece> {
    match e
    case Str(s) => [T(Text(s))]
    case Num(t) => if Negative(t) then [Space, T(Symbol("-")), T(Number(t[1..]))] else [T(Number(t))]
    case Deref(x, inc) =>
      if inc == Plain then [T(Id(x))]
      else if inc == PreInc || inc == PreDec then [Space, T(IncToken(inc)), T(Id(x))]
      else [T(Id(x)), T(IncToken(inc)), Space]
    case Bin(op, l, r) =>
      Bracketed(LeftBrackets(op, l), Pieces(mode, l)) + OpPieces(mode, op) +
      Bracketed(RightBrackets(op, r), Pieces(mode, r))
    case Un(op, a) => UnPieces(op) + Bracketed(a.Bin?, Pieces(mode, a))
  }

  // ---- printing statements in the compact mode ----

  function AssignText(aop: AssignOp): string {
    match aop
    case Set => "=" case AddTo => "+=" case SubTo => "-=" case MulTo => "*=" case DivTo => "/=" case ModTo => "%="
  }

  /** A goto whose line is not known yet is printed with a placeholder of two characters. */
  function StmtPieces(s: Stmt): seq<Piece>
    decreases s, 1
  {
    match s
    case Assign(x, aop, e) => [T(Id(x)), T(Symbol(AssignText(aop)))] + Pieces(Compact, e)
    case If(c, t, e) =>
      [T(Keyword("if")), Space] + Pieces(Compact, c) + [Space, T(Keyword("then")), Space] + (ListPieces(t) +
      ((if e == [] then [] else [Space, T(Keyword("else")), Space] + ListPieces(e)) + [Space, T(Keyword("end"))]))
    case Goto(e) => [T(Keyword("goto")), Space] + Pieces(Compact, e)
    case GotoLabel(_) => [T(Id("goto XX"))]
    case Touch(x, inc) => Pieces(Compact, Deref(x, inc))
    case _ => []
  }

  /** Statements are separated by a space. */
  function ListPieces(ss: seq<Stmt>): seq<Piece>
    decreases ss, 0
  {
    if ss == [] then []
    else if |ss| == 1 then StmtPieces(ss[0])
    else StmtPieces(ss[0]) + ([Space] + ListPieces(ss[1..]))
  }

  // ---- from pieces to text ----

  function TokenText(t: Token): string {
    match t
    case Id(x) => x
    case Number(d) => d
    case Text(v) => ['"'] + InsertEscapes(v) + ['"']
    case Keyword(w) => w
    case Symbol(s) => s
    case _ => ""
  }

  /** The text of some pieces; a space directly behind another one is not printed. */
  function Render(ps: seq<Piece>, lastWasSpace: bool): string {
    if ps == [] then ""
    else
      match ps[0]
      case T(t) => TokenText(t) + Render(ps[1..], false)
      case Space => (if lastWasSpace then "" else " ") + Render(ps[1..], true)
  }

  function LastSpace(ps: seq<Piece>, lastWasSpace: bool): bool {
    if ps == [] then lastWasSpace else LastSpace(ps[1..], ps[0].Space?)
  }

  function TokensOf(ps: seq<Piece>): seq<Token> {
    if ps == [] then [] else (if ps[0].T? then [ps[0].token] else []) + TokensOf(ps[1..])
  }

  // ---- the printer ----

  lemma {:induction false} RenderAppend(a: seq<Piece>, b: seq<Piece>, last: bool)
    ensures Render(a + b, last) == Render(a, last) + Render(b, LastSpace(a, last))
    ensures LastSpace(a + b, last) == LastSpace(b, LastSpace(a, last))
    decreases |a|
  {
    if a == [] {
      assert a + b == b;
    } else {
      assert (a + b)[0] == a[0] && (a + b)[1..] == a[1..] + b;
      RenderAppend(a[1..], b, a[0].Space?);
    }
  }

  lemma RenderSnoc(ps: seq<Piece>, p: Piece, last: bool)
    ensures LastSpace(ps + [p], last) == p.Space?
    ensures Render(ps + [p], last) == Render(ps, last) +
            match p case T(t) => TokenText(t) case Space => if LastSpace(ps, last) then "" else " "
  {
    RenderAppend(ps, [p], last);
    RenderOne(p, LastSpace(ps, last));
  }

  lemma RenderOne(p: Piece, last: bool)
    ensures LastSpace([p], last) == p.Space?
    ensures Render([p], last) == match p case T(t) => TokenText(t) case Space => if last then "" else " "
  {
    assert [p][1..] == [];
    assert Render([p][1..], p.Space?) == "" && LastSpace([p][1..], p.Space?) == p.Space?;
  }

  lemma AppendThree(s: seq<Piece>, a: seq<Piece>, b: seq<Piece>, c: seq<Piece>)
    ensures s + a + b + c == s + (a + b + c)
    ensures s + a + b == s + (a + b)
  {
  }

  lemma IfGrouped(s: seq<Piece>, a: seq<Piece>, b: seq<Piece>, c: seq<Piece>, d: seq<Piece>)
    ensures s + a + b + c + d == s + (a + (b + (c + d)))
  {
  }

  /** What is still to be printed of a list before statement `i`. */
  function RestPieces(ss: seq<Stmt>, i: nat): seq<Piece>
    requires i <= |ss|
  {
    if 0 < i < |ss| then [Space] + ListPieces(ss[i..]) else ListPieces(ss[i..])
  }

  lemma ListUnfold(ss: seq<Stmt>, i: nat)
    requires i < |ss|
    ensures ListPieces(ss[i..]) == StmtPieces(ss[i]) + RestPieces(ss, i + 1)
  {
    assert ss[i..][0] == ss[i] && ss[i..][1..] == ss[i + 1..];
  }

  lemma ListStep(ss: seq<Stmt>, i: nat, printed: seq<Piece>)
    requires i < |ss| && ListPieces(ss) == printed + RestPieces(ss, i)
    ensures ListPieces(ss) == printed + (if i > 0 then [Space] else []) + StmtPieces(ss[i]) + RestPieces(ss, i + 1)
  {
    ListUnfold(ss, i);
    FourGrouped(printed, if i > 0 then [Space] else [], StmtPieces(ss[i]), RestPieces(ss, i + 1));
  }

  lemma FourGrouped(a: seq<Piece>, b: seq<Piece>, c: seq<Piece>, d: seq<Piece>)
    ensures a + b + c + d == a + (b + (c + d))
    ensures b == [] ==> b + (c + d) == c + d
  {
  }

  class Printer {
    const mode: Mode
    var text: string
    var lastWasSpace: bool
    ghost var pieces: seq<Piece>

    /** The text is that of the pieces that have been printed. */
    ghost predicate Valid()
      reads this
    {
      text == Render(pieces, false) && lastWasSpace == LastSpace(pieces, false)
    }

    constructor (mode: Mode)
      ensures Valid() && this.mode == mode && pieces == []
    {
      this.mode, text, lastWasSpace, pieces := mode, "", false, [];
    }

    method Write(t: Token)
      requires Valid()
      modifies this
      ensures Valid() && pieces == old(pieces) + [T(t)]
    {
      RenderSnoc(pieces, T(t), false);
      text := text + TokenText(t);
      lastWasSpace := false;
      pieces := pieces + [T(t)];
    }

    method WriteSpace()
      requires Valid()
      modifies this
      ensures Valid() && pieces == old(pieces) + [Space]
    {
      RenderSnoc(pieces, Space, false);
      if !lastWasSpace {
        text := text + " ";
      }
      lastWasSpace := true;
      pieces := pieces + [Space];
    }

    method OptionalSpace()
      requires Valid()
      modifies this
      ensures Valid() && pieces == old(pieces) + Optional(mode)
    {
      if mode == Readable {
        WriteSpace();
      }
    }

    method PrintDeref(x: string, inc: Inc)
      requires Valid()
      modifies this
      ensures Valid() && pieces == old(pieces) + Pieces(mode, Deref(x, inc))
    {
      if inc == PreInc || inc == PreDec {
        WriteSpace();
        Write(IncToken(inc));
      }
      Write(Id(x));
      if inc == PostInc || inc == PostDec {
        Write(IncToken(inc));
        WriteSpace();
      }
    }

    method PrintBracketed(yes: bool, e: Expr)
      requires Valid()
      modifies this
      ensures Valid() && pieces == old(pieces) + Bracketed(yes, Pieces(mode, e))
      decreases e, 1
    {
      ghost var before := pieces;
      if yes {
        Write(Symbol("("));
      }
      PrintExpression(e);
      if yes {
        Write(Symbol(")"));
        AppendThree(before, [T(Symbol("("))], Pieces(mode, e), [T(Symbol(")"))]);
      }
    }

    method PrintOperator(op: BinOp)
      requires Valid()
      modifies this
      ensures Valid() && pieces == old(pieces) + OpPieces(mode, op)
    {
      if op == And || op == Or {
        WriteSpace();
        Write(OpToken(op));
        WriteSpace();
      } else {
        OptionalSpace();
        Write(OpToken(op));
        OptionalSpace();
      }
    }

    method PrintUnaryOperator(op: UnOp)
      requires Valid()
      modifies this
      ensures Valid() && pieces == old(pieces) + UnPieces(op)
    {
      if op == Neg {
        WriteSpace();
        Write(UnToken(op));
      } else {
        Write(UnToken(op));
        WriteSpace();
      }
    }

    method PrintNumber(t: string)
      requires Valid()
      modifies this
      ensures Valid() && pieces == old(pieces) + Pieces(mode, Num(t))
    {
      if Negative(t) {
        WriteSpace();
        Write(Symbol("-"));
        Write(Number(t[1..]));
      } else {
        Write(Number(t));
      }
    }

    method PrintExpression(e: Expr)
      requires Valid()
      modifies this
      ensures Valid() && pieces == old(pieces) + Pieces(mode, e)
      decreases e, 0
    {
      match e
      case Str(s) => Write(Text(s));
      case Num(t) => PrintNumber(t);
      case Deref(x, inc) => PrintDeref(x, inc);
      case Bin(op, l, r) =>
        ghost var before := pieces;
        PrintBracketed(LeftBrackets(op, l), l);
        PrintOperator(op);
        PrintBracketed(RightBrackets(op, r), r);
        AppendThree(before, Bracketed(LeftBrackets(op, l), Pieces(mode, l)), OpPieces(mode, op),
                    Bracketed(RightBrackets(op, r), Pieces(mode, r)));
      case Un(op, a) =>
        ghost var before := pieces;
        PrintUnaryOperator(op);
        PrintBracketed(a.Bin?, a);
        AppendThree(before, UnPieces(op), Bracketed(a.Bin?, Pieces(mode, a)), []);
    }

    method PrintWord(w: string)
      requires Valid()
      modifies this
      ensures Valid() && pieces == old(pieces) + [T(Keyword(w)), Space]
    {
      Write(Keyword(w));
      WriteSpace();
    }

    method PrintAssignment(x: string, aop: AssignOp, e: Expr)
      requires Valid() && mode == Compact
      modifies this
      ensures Valid() && pieces == old(pieces) + StmtPieces(Assign(x, aop, e))
    {
      ghost var before := pieces;
      Write(Id(x));
      Write(Symbol(AssignText(aop)));
      assert pieces == before + [T(Id(x)), T(Symbol(AssignText(aop)))];
      PrintExpression(e);
      AppendThree(before, [T(Id(x)), T(Symbol(AssignText(aop)))], Pieces(Compact, e), []);
    }

    method PrintStatement(s: Stmt)
      requires Valid() && mode == Compact
      modifies this
      ensures Valid() && pieces == old(pieces) + StmtPieces(s)
      decreases s, 1
    {
      ghost var before := pieces;
      match s
      case Assign(x, aop, e) =>
        PrintAssignment(x, aop, e);
      case If(c, t, e) =>
        PrintIf(s);
      case Goto(e) =>
        PrintWord("goto");
        PrintExpression(e);
        AppendThree(before, [T(Keyword("goto")), Space], Pieces(Compact, e), []);
      case GotoLabel(_) =>
        Write(Id("goto XX"));
      case Touch(x, inc) =>
        PrintDeref(x, inc);
      case _ =>
    }

    method PrintCondition(c: Expr)
      requires Valid() && mode == Compact
      modifies this
      ensures Valid()
      ensures pieces == old(pieces) +
              ([T(Keyword("if")), Space] + Pieces(Compact, c) + [Space, T(Keyword("then")), Space])
    {
      ghost var before := pieces;
      PrintWord("if");
      PrintExpression(c);
      ghost var so := pieces;
      WriteSpace();
      PrintWord("then");
      assert pieces == so + [Space, T(Keyword("then")), Space];
      AppendThree(before, [T(Keyword("if")), Space], Pieces(Compact, c), [Space, T(Keyword("then")), Space]);
    }

    method PrintElse(e: seq<Stmt>)
      requires Valid() && mode == Compact
      modifies this
      ensures Valid() && pieces == old(pieces) +
              if e == [] then [] else [Space, T(Keyword("else")), Space] + ListPieces(e)
      decreases e, 1
    {
      ghost var before := pieces;
      if |e| > 0 {
        WriteSpace();
        PrintWord("else");
        assert pieces == before + [Space, T(Keyword("else")), Space];
        PrintStatements(e);
        AppendThree(before, [Space, T(Keyword("else")), Space], ListPieces(e), []);
      }
    }

    method PrintIf(s: Stmt)
      requires Valid() && mode == Compact && s.If?
      modifies this
      ensures Valid() && pieces == old(pieces) + StmtPieces(s)
      decreases s, 0
    {
      ghost var before := pieces;
      PrintCondition(s.cond);
      PrintStatements(s.thn);
      PrintElse(s.els);
      ghost var so := pieces;
      WriteSpace();
      Write(Keyword("end"));
      assert pieces == so + [Space, T(Keyword("end"))];
      IfGrouped(before, [T(Keyword("if")), Space] + Pieces(Compact, s.cond) + [Space, T(Keyword("then")), Space],
                ListPieces(s.thn), if s.els == [] then [] else [Space, T(Keyword("else")), Space] + ListPieces(s.els),
                [Space, T(Keyword("end"))]);
    }

    method PrintStatements(ss: seq<Stmt>)
      requires Valid() && mode == Compact
      modifies this
      ensures Valid() && pieces == old(pieces) + ListPieces(ss)
      decreases ss, 0
    {
      ghost var before, printed := pieces, [];
      var i := 0;
      while i < |ss|
        invariant 0 <= i <= |ss| && Valid()
        invariant pieces == before + printed && ListPieces(ss) == printed + RestPieces(ss, i)
      {
        ListStep(ss, i, printed);
        if i > 0 {
          WriteSpace();
        }
        PrintStatement(ss[i]);
        AppendThree(before, printed, if i > 0 then [Space] else [], StmtPieces(ss[i]));
        printed := printed + (if i > 0 then [Space] else []) + StmtPieces(ss[i]);
        i := i + 1;
      }
    }

    method Newline()
      modifies this`text, this`lastWasSpace
      ensures text == old(text) + "\n" && !lastWasSpace
    {
      text := text + "\n";
      lastWasSpace := false;
    }
  }

  // ---- which expressions can be printed ----

  predicate IsId(x: string) {
    x != "" && IdLen(x) == |x| && Lower(x) !in KEYWORDS
  }

  predicate IsNumber(t: string) {
    t != "" && NumberLen(t) == |t|
  }

  /** Names are identifiers, numbers are decimal, and strings have no backslash. */
  predicate Printable(e: Expr) {
    match e
    case Str(s) => '\\' !in s
    case Num(t) => IsNumber(if Negative(t) then t[1..] else t)
    case Deref(x, _) => IsId(x)
    case Bin(_, l, r) => Printable(l) && Printable(r)
    case Un(_, a) => Printable(a)
  }

  predicate GoodToken(t: Token) {
    match t
    case Id(x) => IsId(x)
    case Number(d) => IsNumber(d)
    case Text(v) => '\\' !in v
    case Keyword(w) => w in KEYWORDS && Lower(w) == w && WordLen(w) == |w|
    case Symbol(s) => s in SYMBOLS
    case _ => false
  }

  predicate IsWord(t: Token) {
    t.Id? || t.Number? || t.Keyword?
  }

  /** The second token may directly follow the first one. */
  predicate Apart(t: Token, u: Token) {
    if IsWord(t) then !IsWord(u)
    else t.Symbol? ==> t.symbol == "(" || t.symbol == ")" || |t.symbol| == 2 || !u.Symbol? || u.symbol == "("
  }

  /** The text behind a token does not change how the token is read. */
  predicate Stops(t: Token, rest: string) {
    rest == "" ||
    (if IsWord(t) then !IsWordChar(rest[0]) && rest[0] != '.'
     else t.Symbol? ==> t.symbol == "(" || t.symbol == ")" || |t.symbol| == 2 || rest[0] !in ['+', '-', '=', '/'])
  }

  // ---- reading a single token ----

  lemma {:induction false} SpanAppend(p: char -> bool, s: string, rest: string)
    requires Span(p, s) == |s| && (rest == "" || !p(rest[0]))
    ensures Span(p, s + rest) == |s|
  {
    if s == "" {
      assert s + rest == rest;
    } else {
      assert (s + rest)[1..] == s[1..] + rest;
      SpanAppend(p, s[1..], rest);
    }
  }

  /** A stretch that ends inside of the text ends there too if the text goes on. */
  lemma {:induction false} SpanInside(p: char -> bool, s: string, rest: string)
    requires Span(p, s) < |s|
    ensures Span(p, s + rest) == Span(p, s) && !p(s[Span(p, s)])
  {
    assert (s + rest)[1..] == s[1..] + rest;
    if p(s[0]) {
      SpanInside(p, s[1..], rest);
    }
  }

  lemma {:induction false} SpanHolds(p: char -> bool, s: string)
    ensures forall i :: 0 <= i < Span(p, s) ==> p(s[i])
  {
    if s != "" && p(s[0]) {
      SpanHolds(p, s[1..]);
    }
  }

  lemma NoSymbolAt(s: string, i: nat)
    requires i <= |SYMBOLS| && s != "" && (IsWordChar(s[0]) || s[0] == ':' || s[0] == '"')
    ensures FirstSymbol(s, i).None?
    decreases |SYMBOLS| - i
  {
    if i < |SYMBOLS| {
      SymbolsLength();
      SymbolStarts(i);
      NoSymbolAt(s, i + 1);
    }
  }

  lemma NoSymbol(s: string)
    requires s != "" && (IsWordChar(s[0]) || s[0] == ':' || s[0] == '"')
    ensures SymbolAt(s).None?
  {
    NoSymbolAt(s, 0);
  }

  lemma SymbolStarts(i: nat)
    requires i < |SYMBOLS|
    ensures |SYMBOLS[i]| > 0 && !IsWordChar(SYMBOLS[i][0]) && SYMBOLS[i][0] != ':' && SYMBOLS[i][0] != '"'
  {
  }

  lemma KeywordsAreWords(w: string)
    requires w in KEYWORDS
    ensures w != "" && IsLetter(w[0])
  {
  }

  lemma NoKeyword(s: string)
    requires s != "" && !IsLetter(s[0])
    ensures KeywordLen(s) == 0
  {
    var w := Lower(s[..WordLen(s)]);
    if w in KEYWORDS {
      KeywordsAreWords(w);
    }
  }

  lemma ReadId(x: string, rest: string)
    requires IsId(x) && Stops(Id(x), rest)
    ensures TokenAt(x + rest) == (Id(x), |x|)
  {
    var s := x + rest;
    var p := if x[0] == ':' then 1 else 0;
    var word := c => IsWordChar(c);
    assert s[p..] == x[p..] + rest;
    SpanAppend(word, x[p..], rest);
    assert IdLen(s) == |x| && s[..|x|] == x;
    if p == 0 {
      assert x[0..] == x && s[0..] == s;
    } else {
      NoKeyword(s);
    }
    NoSymbol(s);
  }

  lemma ReadKeyword(w: string, rest: string)
    requires GoodToken(Keyword(w)) && Stops(Keyword(w), rest)
    ensures TokenAt(w + rest) == (Keyword(w), |w|)
  {
    var s := w + rest;
    KeywordsAreWords(w);
    SpanAppend(c => IsWordChar(c), w, rest);
    assert s[..|w|] == w;
  }

  lemma ReadText(v: string, rest: string)
    requires '\\' !in v
    ensures TokenAt(TokenText(Text(v)) + rest) == (Text(v), |TokenText(Text(v))|)
  {
    var s := TokenText(Text(v)) + rest;
    assert s == ['"'] + InsertEscapes(v) + ['"'] + rest;
    StringRoundTrip(v, rest);
    NoKeyword(s);
    NoSymbol(s);
  }

  lemma NumberAppend(t: string, rest: string)
    requires IsNumber(t) && Stops(Number(t), rest)
    ensures NumberLen(t + rest) == |t| && IsDigit(t[0])
  {
    var digit := c => IsDigit(c);
    var d := DigitLen(t);
    SpanHolds(digit, t);
    assert d > 0;
    if d == |t| {
      SpanAppend(digit, t, rest);
      assert d < |t + rest| ==> (t + rest)[d] == rest[0];
    } else {
      SpanInside(digit, t, rest);
      assert (t + rest)[d] == t[d] && (t + rest)[d + 1..] == t[d + 1..] + rest;
      SpanAppend(digit, t[d + 1..], rest);
    }
  }

  lemma ReadNumber(t: string, rest: string)
    requires IsNumber(t) && Stops(Number(t), rest)
    ensures TokenAt(t + rest) == (Number(t), |t|)
  {
    var s := t + rest;
    NumberAppend(t, rest);
    assert s[0] == t[0] && s[..|t|] == t;
    NoKeyword(s);
    NoSymbol(s);
  }

  /** No symbol of two characters can be read where one of a single character ends. */
  lemma {:induction false} LongerSymbol(c: char, rest: string, i: nat)
    requires i <= 12 && Stops(Symbol([c]), rest)
    ensures FirstSymbol([c] + rest, i) == FirstSymbol([c] + rest, 12)
    decreases 12 - i
  {
    if i < 12 {
      LongSymbols(i);
      var s := [c] + rest;
      assert |s| > 1 ==> s[1] == rest[0];
      NotPrefix(SYMBOLS[i], s);
      LongerSymbol(c, rest, i + 1);
    }
  }

  lemma NotPrefix(y: string, s: string)
    requires |y| == 2 && (|s| < 2 || s[0] != y[0] || s[1] != y[1])
    ensures !(y <= s)
  {
  }

  lemma LongSymbols(i: nat)
    requires i < 12
    ensures |SYMBOLS[i]| == 2 && SYMBOLS[i][1] in ['+', '-', '='] && SYMBOLS[i][0] != '(' && SYMBOLS[i][0] != ')'
  {
  }

  lemma {:induction false} SymbolFound(s: string, i: nat, j: nat)
    requires i <= j < |SYMBOLS| && SYMBOLS[j] <= s && forall k :: i <= k < j ==> |SYMBOLS[k]| == |SYMBOLS[j]|
    ensures FirstSymbol(s, i) == Some(SYMBOLS[j])
    decreases j - i
  {
    if SYMBOLS[i] <= s {
      assert SYMBOLS[i] == s[..|SYMBOLS[i]|] && SYMBOLS[j] == s[..|SYMBOLS[j]|];
    } else {
      SymbolFound(s, i + 1, j);
    }
  }

  lemma ReadSymbol(y: string, rest: string)
    requires y in SYMBOLS && Stops(Symbol(y), rest)
    ensures TokenAt(y + rest) == (Symbol(y), |y|)
  {
    var s := y + rest;
    var j :| 0 <= j < |SYMBOLS| && SYMBOLS[j] == y;
    SymbolsLength();
    SymbolStarts(j);
    if |y| == 2 {
      SymbolFound(s, 0, j);
    } else {
      assert y == [y[0]];
      LongerSymbol(y[0], rest, 0);
      SymbolFound(s, 12, j);
    }
    assert s[0] == y[0];
    NotSpecial(y, rest);
  }

  /** A symbol is not read as a comment, whitespace, newline or keyword. */
  lemma NotSpecial(y: string, rest: string)
    requires y in SYMBOLS && Stops(Symbol(y), rest)
    ensures var s := y + rest;
            s != "" && CommentLen(s) == 0 && !IsBlank(s[0]) && s[0] != '\n' && KeywordLen(s) == 0
  {
    var s := y + rest;
    var j :| 0 <= j < |SYMBOLS| && SYMBOLS[j] == y;
    SymbolStarts(j);
    PlainSymbol(j);
    NoKeyword(s);
    assert |y| == 2 ==> s[1] == y[1];
    assert |y| == 1 && rest != "" ==> s[1] == rest[0];
  }

  lemma PlainSymbol(j: nat)
    requires j < |SYMBOLS|
    ensures var y := SYMBOLS[j]; |y| > 0 && !IsBlank(y[0]) && y[0] != '\n' && (|y| == 2 ==> y[1] != '/')
  {
  }

  /** A token is read back, whatever follows. */
  lemma ReadToken(t: Token, rest: string)
    requires GoodToken(t) && Stops(t, rest)
    ensures TokenAt(TokenText(t) + rest) == (t, |TokenText(t)|) && TokenText(t) != ""
  {
    match t
    case Id(x) => ReadId(x, rest);
    case Number(d) => ReadNumber(d, rest);
    case Text(v) => ReadText(v, rest);
    case Keyword(w) => ReadKeyword(w, rest); KeywordsAreWords(w);
    case Symbol(y) => ReadSymbol(y, rest); SymbolsLength();
  }

  // ---- reading the whole text ----

  /** Neighbours without a space between them cannot be confused. */
  predicate Joins(p: Piece, q: Piece) {
    p.T? && q.T? ==> Apart(p.token, q.token)
  }

  predicate Chained(ps: seq<Piece>) {
    ps == [] ||
    ((ps[0].T? ==> GoodToken(ps[0].token)) && (|ps| > 1 ==> Joins(ps[0], ps[1])) && Chained(ps[1..]))
  }

  lemma FirstChar(t: Token, u: Token)
    requires GoodToken(t) && GoodToken(u) && Apart(t, u)
    ensures forall rest :: Stops(t, TokenText(u) + rest)
  {
    forall rest ensures Stops(t, TokenText(u) + rest) {
      var s := TokenText(u) + rest;
      match u
      case Id(x) =>
        assert s[0] == x[0];
      case Number(d) => NumberAppend(d, "");
        assert s[0] == d[0];
      case Text(_) => assert s[0] == '"';
      case Keyword(w) => KeywordsAreWords(w);
        assert s[0] == w[0];
      case Symbol(y) =>
        var j :| 0 <= j < |SYMBOLS| && SYMBOLS[j] == y;
        SymbolStarts(j);
        SymbolNoDot(j);
        assert s[0] == y[0];
    }
  }

  lemma SymbolNoDot(j: nat)
    requires j < |SYMBOLS|
    ensures |SYMBOLS[j]| > 0 && SYMBOLS[j][0] != '.'
  {
  }

  /** The text is read as these tokens; behind a space, one more space would not matter. */
  ghost predicate ReadsAs(s: string, last: bool, ts: seq<Token>) {
    Lex(s) == ts && (last ==> Lex(" " + s) == ts)
  }

  lemma {:induction false} LexRendered(ps: seq<Piece>, last: bool)
    requires Chained(ps)
    ensures ReadsAs(Render(ps, last), last, TokensOf(ps))
    decreases |ps|
  {
    if ps == [] {
      LexBlank("");
    } else if ps[0].T? {
      LexRendered(ps[1..], false);
      LexToken(ps, last);
    } else {
      LexRendered(ps[1..], true);
      LexSpace(ps, last);
    }
  }

  lemma LexSpace(ps: seq<Piece>, last: bool)
    requires ps != [] && ps[0].Space? && ReadsAs(Render(ps[1..], true), true, TokensOf(ps[1..]))
    ensures ReadsAs(Render(ps, last), last, TokensOf(ps))
  {
    var s := Render(ps[1..], true);
    assert "" + s == s;
    assert Render(ps, last) == if last then s else " " + s;
  }

  lemma LexToken(ps: seq<Piece>, last: bool)
    requires ps != [] && ps[0].T? && Chained(ps) && ReadsAs(Render(ps[1..], false), false, TokensOf(ps[1..]))
    ensures ReadsAs(Render(ps, last), last, TokensOf(ps))
  {
    var t, rest := ps[0].token, Render(ps[1..], false);
    if |ps| > 1 && ps[1].T? {
      assert ps[1..][0] == ps[1];
      FirstChar(t, ps[1].token);
      assert rest == TokenText(ps[1].token) + Render(ps[1..][1..], false);
    }
    ReadToken(t, rest);
    var s := TokenText(t) + rest;
    assert s[|TokenText(t)|..] == rest;
    assert !IsBlank(s[0]);
    LexBlank(s);
  }

  lemma LexBlank(s: string)
    requires s == "" || !IsBlank(s[0])
    ensures Lex(" " + s) == Lex(s)
  {
    var b := " " + s;
    assert b[1..] == s;
    assert Span(c => IsBlank(c), b) == 1 + Span(c => IsBlank(c), s);
    assert TokenAt(b) == (Whitespace, 1);
  }
}
