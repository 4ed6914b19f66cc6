/** Printed statements are read as the tokens that were meant (pkg/parser/printer.go, pkg/parser/ast/tokenizer.go). */
module Spelling {
  import opened Ast
  import opened Lexing
  import opened Printing
  import opened Parsing
  import opened RoundTrip

  // ---- what is meant ----

  function AssignToken(aop: AssignOp): Token {
    Symbol(if aop == Set then "=" else OpText(AssignBinOp(aop)) + "=")
  }

  function SpelledStmt(s: Stmt): seq<Token>
    decreases s, 1
  {
    match s
    case Assign(x, aop, e) => [Id(x), AssignToken(aop)] + Tokens(e)
    case If(c, t, e) =>
      [Keyword("if")] + Tokens(c) + [Keyword("then")] + Spelled(t) +
      (if e == [] then [] else [Keyword("else")] + Spelled(e)) + [Keyword("end")]
    case Goto(e) => [Keyword("goto")] + Tokens(e)
    case Touch(x, Plain) => [Id(x)]
    case Touch(x, PreInc) => [Symbol("++"), Id(x)]
    case Touch(x, PreDec) => [Symbol("--"), Id(x)]
    case Touch(x, PostInc) => [Id(x), Symbol("++")]
    case Touch(x, PostDec) => [Id(x), Symbol("--")]
    case _ => []
  }

  function Spelled(ss: seq<Stmt>): seq<Token>
    decreases ss, 0
  {
    if ss == [] then [] else SpelledStmt(ss[0]) + Spelled(ss[1..])
  }

  /** Statements of YOLOL, with expressions that can be printed. */
  predicate PrintableStmt(s: Stmt)
    decreases s, 1
  {
    match s
    case Assign(x, _, e) => IsId(x) && Printable(e)
    case If(c, t, e) => Printable(c) && PrintableStmts(t) && PrintableStmts(e)
    case Goto(e) => Printable(e)
    case Touch(x, _) => IsId(x)
    case _ => false
  }

  predicate PrintableStmts(ss: seq<Stmt>)
    decreases ss, 0
  {
    ss == [] || (PrintableStmt(ss[0]) && PrintableStmts(ss[1..]))
  }

  /** An assignment operator is written as the operator that the machine computes with, and an equals sign. */
  lemma AssignIsOperator(aop: AssignOp)
    ensures Symbol(AssignText(aop)) == AssignToken(aop)
    ensures AssignText(aop) in SYMBOLS
  {
    assert SYMBOLS[12] == "=" && SYMBOLS[7] == "+=" && SYMBOLS[8] == "-=" && SYMBOLS[9] == "*=";
    assert SYMBOLS[10] == "/=" && SYMBOLS[11] == "%=";
  }

  // ---- pieces with a space between them ----

  lemma Spaced(a: seq<Piece>, b: seq<Piece>)
    requires Chained(a) && Chained(b)
    ensures Chained(a + ([Space] + b)) && TokensOf(a + ([Space] + b)) == TokensOf(a) + TokensOf(b)
  {
    assert ([Space] + b)[1..] == b;
    TokensAppend(a, [Space] + b);
    if a != [] {
      ChainedAppend(a, [Space] + b);
    } else {
      assert a + ([Space] + b) == [Space] + b;
    }
  }

  lemma Word(w: string)
    requires w in {"if", "then", "else", "end", "goto"}
    ensures Chained([T(Keyword(w))]) && TokensOf([T(Keyword(w))]) == [Keyword(w)]
  {
    GoodWord(w);
    assert [T(Keyword(w))][1..] == [];
  }

  // ---- statements ----

  lemma AssignSpelled(x: string, aop: AssignOp, e: Expr)
    requires IsId(x) && Printable(e)
    ensures var ps := StmtPieces(Assign(x, aop, e)); Chained(ps) && TokensOf(ps) == SpelledStmt(Assign(x, aop, e))
  {
    AssignIsOperator(aop);
    PiecesOperand(Compact, e);
    PiecesTokens(Compact, e);
    BehindSymbol(Id(x), AssignToken(aop), Pieces(Compact, e));
    assert StmtPieces(Assign(x, aop, e)) == [T(Id(x)), T(AssignToken(aop))] + Pieces(Compact, e);
  }

  /** A word and a symbol in front of an operand. */
  lemma BehindSymbol(x: Token, y: Token, ps: seq<Piece>)
    requires GoodToken(x) && x.Id? && GoodToken(y) && y.Symbol? && Operand(ps)
    ensures Chained([T(x), T(y)] + ps) && TokensOf([T(x), T(y)] + ps) == [x, y] + TokensOf(ps)
  {
    var head := [T(x), T(y)];
    ChainedTwo(head[0], head[1]);
    ChainedAppend(head, ps);
    TokensAppend(head, ps);
    assert head[1..] == [head[1]] && head[1..][1..] == [];
  }

  lemma GotoSpelled(e: Expr)
    requires Printable(e)
    ensures var ps := StmtPieces(Goto(e)); Chained(ps) && TokensOf(ps) == SpelledStmt(Goto(e))
  {
    PiecesOperand(Compact, e);
    PiecesTokens(Compact, e);
    Word("goto");
    Spaced([T(Keyword("goto"))], Pieces(Compact, e));
    assert StmtPieces(Goto(e)) == [T(Keyword("goto"))] + ([Space] + Pieces(Compact, e));
  }

  lemma TouchSpelled(x: string, inc: Inc)
    requires IsId(x)
    ensures var ps := StmtPieces(Touch(x, inc)); Chained(ps) && TokensOf(ps) == SpelledStmt(Touch(x, inc))
  {
    PiecesOperand(Compact, Deref(x, inc));
    PiecesTokens(Compact, Deref(x, inc));
  }

  /** The end of an if, with its else block if it has one, behind the space that separates it. */
  function TailPieces(e: seq<Stmt>): seq<Piece> {
    if e == [] then [T(Keyword("end"))]
    else [T(Keyword("else"))] + ([Space] + (ListPieces(e) + ([Space] + [T(Keyword("end"))])))
  }

  lemma TailSpelled(e: seq<Stmt>)
    requires Chained(ListPieces(e)) && TokensOf(ListPieces(e)) == Spelled(e)
    ensures Chained(TailPieces(e))
    ensures TokensOf(TailPieces(e)) == (if e == [] then [] else [Keyword("else")] + Spelled(e)) + [Keyword("end")]
  {
    if e == [] {
      Word("end");
      assert [] + [Keyword("end")] == [Keyword("end")];
    } else {
      ElseSpelled(ListPieces(e), Spelled(e));
    }
  }

  lemma ElseSpelled(ps: seq<Piece>, ts: seq<Token>)
    requires Chained(ps) && TokensOf(ps) == ts
    ensures var last, other := [T(Keyword("end"))], [T(Keyword("else"))];
            var tail := other + ([Space] + (ps + ([Space] + last)));
            Chained(tail) && TokensOf(tail) == [Keyword("else")] + ts + [Keyword("end")]
  {
    var last, other := [T(Keyword("end"))], [T(Keyword("else"))];
    Word("end");
    Word("else");
    Spaced(ps, last);
    Spaced(other, ps + ([Space] + last));
  }

  lemma IfSpelled(c: Expr, t: seq<Stmt>, e: seq<Stmt>)
    requires Printable(c)
    requires Chained(ListPieces(t)) && TokensOf(ListPieces(t)) == Spelled(t)
    requires Chained(ListPieces(e)) && TokensOf(ListPieces(e)) == Spelled(e)
    ensures var ps := StmtPieces(If(c, t, e)); Chained(ps) && TokensOf(ps) == SpelledStmt(If(c, t, e))
  {
    var tail := TailPieces(e);
    PiecesOperand(Compact, c);
    PiecesTokens(Compact, c);
    TailSpelled(e);
    IfIsSpaced(c, t, e);
    IfTokens(Pieces(Compact, c), ListPieces(t), tail);
    Five([Keyword("if")], Tokens(c), [Keyword("then")], Spelled(t), TokensOf(tail));
    Grouped([Keyword("if")] + Tokens(c) + [Keyword("then")] + Spelled(t),
            if e == [] then [] else [Keyword("else")] + Spelled(e), [Keyword("end")]);
  }

  lemma Grouped(a: seq<Token>, b: seq<Token>, c: seq<Token>)
    ensures a + (b + c) == a + b + c
  {
  }

  lemma IfTokens(cond: seq<Piece>, t: seq<Piece>, tail: seq<Piece>)
    requires Chained(cond) && Chained(t) && Chained(tail)
    ensures var ps := [T(Keyword("if"))] + ([Space] + (cond + ([Space] + ([T(Keyword("then"))] + ([Space] +
                      (t + ([Space] + tail)))))));
            && Chained(ps)
            && TokensOf(ps) == [Keyword("if")] + (TokensOf(cond) + ([Keyword("then")] + (TokensOf(t) + TokensOf(tail))))
  {
    var first, second := [T(Keyword("if"))], [T(Keyword("then"))];
    Word("if");
    Word("then");
    Spaced(t, tail);
    var body := t + ([Space] + tail);
    Spaced(second, body);
    Spaced(cond, second + ([Space] + body));
    Spaced(first, cond + ([Space] + (second + ([Space] + body))));
  }

  lemma IfIsSpaced(c: Expr, t: seq<Stmt>, e: seq<Stmt>)
    ensures var body := ListPieces(t) + ([Space] + TailPieces(e));
            StmtPieces(If(c, t, e)) == [T(Keyword("if"))] + ([Space] + (Pieces(Compact, c) + ([Space] +
                                       ([T(Keyword("then"))] + ([Space] + body)))))
  {
    var body := ListPieces(t) + ([Space] + TailPieces(e));
    TailIs(e);
    assert StmtPieces(If(c, t, e)) ==
           [T(Keyword("if")), Space] + Pieces(Compact, c) + [Space, T(Keyword("then")), Space] + body;
    Regrouped(T(Keyword("if")), T(Keyword("then")), Pieces(Compact, c), body);
  }

  lemma TailIs(e: seq<Stmt>)
    ensures (if e == [] then [] else [Space, T(Keyword("else")), Space] + ListPieces(e)) + [Space, T(Keyword("end"))] ==
            [Space] + TailPieces(e)
  {
    if e != [] {
      Regrouped2(T(Keyword("else")), T(Keyword("end")), ListPieces(e));
    }
  }

  lemma Regrouped2(a: Piece, b: Piece, ps: seq<Piece>)
    ensures [Space, a, Space] + ps + [Space, b] == [Space] + ([a] + ([Space] + (ps + ([Space] + [b]))))
  {
    assert [Space, a, Space] == [Space] + ([a] + [Space]) && [Space, b] == [Space] + [b];
  }

  lemma Regrouped(a: Piece, b: Piece, ps: seq<Piece>, qs: seq<Piece>)
    ensures [a, Space] + ps + [Space, b, Space] + qs == [a] + ([Space] + (ps + ([Space] + ([b] + ([Space] + qs)))))
  {
    assert [a, Space] == [a] + [Space] && [Space, b, Space] == [Space] + ([b] + [Space]);
  }

  lemma Five(a: seq<Token>, b: seq<Token>, c: seq<Token>, d: seq<Token>, e: seq<Token>)
    ensures a + (b + (c + (d + e))) == a + b + c + d + e
  {
  }

  lemma {:induction false} StmtSpelled(s: Stmt)
    requires PrintableStmt(s)
    ensures Chained(StmtPieces(s)) && TokensOf(StmtPieces(s)) == SpelledStmt(s)
    decreases s, 1
  {
    match s
    case Assign(x, aop, e) => AssignSpelled(x, aop, e);
    case If(c, t, e) =>
      ListSpelled(t);
      ListSpelled(e);
      IfSpelled(c, t, e);
    case Goto(e) => GotoSpelled(e);
    case Touch(x, inc) => TouchSpelled(x, inc);
  }

  lemma {:induction false} ListSpelled(ss: seq<Stmt>)
    requires PrintableStmts(ss)
    ensures Chained(ListPieces(ss)) && TokensOf(ListPieces(ss)) == Spelled(ss)
    decreases ss, 0
  {
    if ss != [] {
      StmtSpelled(ss[0]);
      ListSpelled(ss[1..]);
      if |ss| > 1 {
        Spaced(StmtPieces(ss[0]), ListPieces(ss[1..]));
      } else {
        assert ss[1..] == [] && SpelledStmt(ss[0]) + [] == SpelledStmt(ss[0]);
      }
    }
  }

  /** The text of a printed line of statements is read as exactly the tokens that were meant. */
  lemma LexStatements(ss: seq<Stmt>)
    requires PrintableStmts(ss)
    ensures Lex(Render(ListPieces(ss), false)) == Spelled(ss)
  {
    ListSpelled(ss);
    LexRendered(ListPieces(ss), false);
  }

  /** Prints the statements and splits the text into tokens. */
  method PrintAndLex(ss: seq<Stmt>) returns (tokens: seq<Token>)
    requires PrintableStmts(ss)
    ensures tokens == Spelled(ss)
  {
    var printer := new Printer(Compact);
    printer.PrintStatements(ss);
    assert printer.pieces == ListPieces(ss);
    LexStatements(ss);
    var tokenizer := new Tokenizer(printer.text);
    tokens := PullAll(tokenizer);
  }

  // ---- how much space is printed ----

  /** Spaces stand next to words, and where two operators might run together. */
  predicate NeedsSpace(p: Piece) {
    p.T? && (p.token.Keyword? || (p.token.Symbol? && p.token.symbol in {"++", "--", "-"}))
  }

  predicate Excused(ps: seq<Piece>, i: nat) {
    i < |ps| && ps[i].Space? ==>
      (i > 0 && NeedsSpace(ps[i - 1])) || (i + 1 < |ps| && NeedsSpace(ps[i + 1]))
  }

  ghost predicate Sparing(ps: seq<Piece>) {
    forall i: nat {:trigger Excused(ps, i)} :: Excused(ps, i)
  }

  lemma SparingAppend(a: seq<Piece>, b: seq<Piece>)
    requires Sparing(a) && Sparing(b)
    ensures Sparing(a + b)
  {
    forall i: nat ensures Excused(a + b, i) {
      assert Excused(a, i);
      if i >= |a| {
        assert Excused(b, i - |a|);
      }
    }
  }

  lemma SparingBracketed(yes: bool, ps: seq<Piece>)
    requires Sparing(ps)
    ensures Sparing(Bracketed(yes, ps))
  {
    SparingAppend([T(Symbol("("))], ps);
    SparingAppend([T(Symbol("("))] + ps, [T(Symbol(")"))]);
  }

  lemma SparingOp(op: BinOp)
    ensures Sparing(OpPieces(Compact, op))
  {
    var t := T(OpToken(op));
    assert Optional(Compact) + [t] + Optional(Compact) == [t];
    forall i: nat ensures Excused(OpPieces(Compact, op), i) {
      assert OpPieces(Compact, op) == [t] || (t.token.Keyword? && OpPieces(Compact, op) == [Space, t, Space]);
    }
  }

  lemma SparingUn(op: UnOp)
    ensures Sparing(UnPieces(op))
  {
    forall i: nat ensures Excused(UnPieces(op), i) {
      assert i < 2 ==> UnPieces(op)[i] == UnPieces(op)[0] || UnPieces(op)[i] == UnPieces(op)[1];
    }
  }

  /** The compact mode wastes no spaces on symbols. */
  lemma {:induction false} CompactIsSparing(e: Expr)
    ensures Sparing(Pieces(Compact, e))
  {
    match e
    case Bin(op, l, r) =>
      CompactIsSparing(l);
      CompactIsSparing(r);
      SparingBracketed(LeftBrackets(op, l), Pieces(Compact, l));
      SparingBracketed(RightBrackets(op, r), Pieces(Compact, r));
      SparingOp(op);
      SparingAppend(Bracketed(LeftBrackets(op, l), Pieces(Compact, l)), OpPieces(Compact, op));
      SparingAppend(Bracketed(LeftBrackets(op, l), Pieces(Compact, l)) + OpPieces(Compact, op),
                    Bracketed(RightBrackets(op, r), Pieces(Compact, r)));
    case Un(op, a) =>
      CompactIsSparing(a);
      SparingBracketed(a.Bin?, Pieces(Compact, a));
      SparingUn(op);
      SparingAppend(UnPieces(op), Bracketed(a.Bin?, Pieces(Compact, a)));
    case _ =>
      forall i: nat ensures Excused(Pieces(Compact, e), i) {
        assert |Pieces(Compact, e)| <= 3;
      }
  }

  /** The readable mode puts spaces around every operator between two variables, the compact one around words. */
  lemma OperatorText(x: string, op: BinOp, y: string)
    ensures var e := Bin(op, Deref(x, Plain), Deref(y, Plain));
            && Render(Pieces(Readable, e), false) == x + (" " + (OpText(op) + (" " + y)))
            && Render(Pieces(Compact, e), false) ==
               if op in {And, Or} then x + (" " + (OpText(op) + (" " + y))) else x + (OpText(op) + y)
  {
    var a, o, b := T(Id(x)), T(OpToken(op)), T(Id(y));
    FivePieces(a, Space, o, Space, b);
    assert Pieces(Readable, Bin(op, Deref(x, Plain), Deref(y, Plain))) == [a, Space, o, Space, b];
    if op in {And, Or} {
      assert Pieces(Compact, Bin(op, Deref(x, Plain), Deref(y, Plain))) == [a, Space, o, Space, b];
    } else {
      assert Pieces(Compact, Bin(op, Deref(x, Plain), Deref(y, Plain))) == [a, o, b];
      ThreePieces(a, o, b);
    }
  }

  lemma FivePieces(a: Piece, p: Piece, o: Piece, q: Piece, b: Piece)
    requires a.T? && p.Space? && o.T? && q.Space? && b.T?
    ensures Render([a, p, o, q, b], false) ==
            TokenText(a.token) + (" " + (TokenText(o.token) + (" " + TokenText(b.token))))
  {
    var ps := [a, p, o, q, b];
    assert ps[1..] == [p, o, q, b] && ps[1..][1..] == [o, q, b] && ps[1..][1..][1..] == [q, b];
    ThreePieces(o, q, b);
    assert Render([p, o, q, b], false) == " " + Render([o, q, b], true);
    assert Render([o, q, b], true) == Render([o, q, b], false);
  }

  lemma ThreePieces(a: Piece, p: Piece, b: Piece)
    requires a.T? && b.T?
    ensures Render([a, p, b], false) ==
            TokenText(a.token) + ((if p.T? then TokenText(p.token) else " ") + TokenText(b.token))
  {
    assert [a, p, b][1..] == [p, b] && [p, b][1..] == [b] && [b][1..] == [];
    assert Render([b], true) == TokenText(b.token) + "" && Render([b], false) == TokenText(b.token) + "";
  }
}
