/** Printing an expression and parsing the printed text again. */
module RoundTrip {
  import opened Ast
  import opened Lexing
  import opened Printing
  import opened Parsing

  // ---- the tokens of an expression ----

  function TokensB(yes: bool, ts: seq<Token>): seq<Token> {
    if yes then [Symbol("(")] + ts + [Symbol(")")] else ts
  }

  function Tokens(e: Expr): seq<Token> {
    match e
    case Str(s) => [Text(s)]
    case Num(t) => if Negative(t) then [Symbol("-"), Number(t[1..])] else [Number(t)]
    case Deref(x, inc) =>
      if inc == Plain then [Id(x)]
      else if inc == PreInc || inc == PreDec then [IncToken(inc), Id(x)]
      else [Id(x), IncToken(inc)]
    case Bin(op, l, r) => TokensB(LeftBrackets(op, l), Tokens(l)) +
                          ([OpToken(op)] + TokensB(RightBrackets(op, r), Tokens(r)))
    case Un(op, a) => [UnToken(op)] + TokensB(a.Bin?, Tokens(a))
  }

  lemma {:induction false} TokensAppend(a: seq<Piece>, b: seq<Piece>)
    ensures TokensOf(a + b) == TokensOf(a) + TokensOf(b)
  {
    if a == [] {
      assert a + b == b;
    } else {
      assert (a + b)[0] == a[0] && (a + b)[1..] == a[1..] + b;
      TokensAppend(a[1..], b);
    }
  }

  lemma TokensBracketed(yes: bool, ps: seq<Piece>)
    ensures TokensOf(Bracketed(yes, ps)) == TokensB(yes, TokensOf(ps))
  {
    if yes {
      TokensAppend([T(Symbol("("))] + ps, [T(Symbol(")"))]);
      TokensAppend([T(Symbol("("))], ps);
    }
  }

  lemma OpTokens(mode: Mode, op: BinOp)
    ensures TokensOf(OpPieces(mode, op)) == [OpToken(op)]
  {
    var t := T(OpToken(op));
    var gap := if IsAndOr(op) then [Space] else Optional(mode);
    TokensAppend(gap, [t]);
    TokensAppend(gap + [t], gap);
    assert OpPieces(mode, op) == gap + [t] + gap;
    assert gap != [] ==> gap == [Space] && gap[1..] == [];
  }

  lemma BinTokens(mode: Mode, op: BinOp, a: seq<Piece>, b: seq<Piece>)
    ensures TokensOf(a + OpPieces(mode, op) + b) == TokensOf(a) + [OpToken(op)] + TokensOf(b)
  {
    OpTokens(mode, op);
    TokensAppend(a + OpPieces(mode, op), b);
    TokensAppend(a, OpPieces(mode, op));
  }

  lemma AppendAssociates(a: seq<Token>, b: seq<Token>, c: seq<Token>)
    ensures a + b + c == a + (b + c)
  {
  }

  lemma UnTokens(op: UnOp, a: seq<Piece>)
    ensures TokensOf(UnPieces(op) + a) == [UnToken(op)] + TokensOf(a)
  {
    TokensAppend(UnPieces(op), a);
    assert UnPieces(op)[1..][1..] == [];
  }

  /** Spaces do not matter for the tokens. */
  lemma {:induction false} PiecesTokens(mode: Mode, e: Expr)
    ensures TokensOf(Pieces(mode, e)) == Tokens(e)
  {
    match e
    case Bin(op, l, r) =>
      var a, b := Bracketed(LeftBrackets(op, l), Pieces(mode, l)), Bracketed(RightBrackets(op, r), Pieces(mode, r));
      PiecesTokens(mode, l);
      PiecesTokens(mode, r);
      TokensBracketed(LeftBrackets(op, l), Pieces(mode, l));
      TokensBracketed(RightBrackets(op, r), Pieces(mode, r));
      BinTokens(mode, op, a, b);
      AppendAssociates(TokensOf(a), [OpToken(op)], TokensOf(b));
    case Un(op, a) =>
      PiecesTokens(mode, a);
      TokensBracketed(a.Bin?, Pieces(mode, a));
      UnTokens(op, Bracketed(a.Bin?, Pieces(mode, a)));
    case _ => LeafTokens(mode, e);
  }

  lemma LeafTokens(mode: Mode, e: Expr)
    requires !e.Bin? && !e.Un?
    ensures TokensOf(Pieces(mode, e)) == Tokens(e)
  {
    var ps := Pieces(mode, e);
    assert ps[|ps|..] == [];
    if |ps| == 3 {
      assert ps[1..][1..] == ps[2..] && ps[1..][0] == ps[1] && ps[2..][0] == ps[2] && ps[2..][1..] == [];
      assert TokensOf(ps[2..]) == if ps[2].T? then [ps[2].token] else [];
      assert TokensOf(ps[1..]) == (if ps[1].T? then [ps[1].token] else []) + TokensOf(ps[2..]);
    }
  }

  // ---- no two neighbours can be confused ----

  predicate StartsWell(p: Piece) {
    p.T? ==> IsWord(p.token) || p.token.Text? || p.token == Symbol("(")
  }

  predicate EndsWell(p: Piece) {
    p.T? ==> IsWord(p.token) || p.token.Text? || p.token == Symbol(")")
  }

  /** The pieces of an operand. */
  ghost predicate Operand(ps: seq<Piece>) {
    ps != [] && Chained(ps) && StartsWell(ps[0]) && EndsWell(ps[|ps| - 1])
  }

  lemma {:induction false} ChainedAppend(a: seq<Piece>, b: seq<Piece>)
    requires a != [] && b != [] && Chained(a) && Chained(b) && Joins(a[|a| - 1], b[0])
    ensures Chained(a + b)
  {
    assert (a + b)[1..] == a[1..] + b;
    if |a| > 1 {
      ChainedAppend(a[1..], b);
    } else {
      assert a[1..] + b == b;
    }
  }

  lemma ChainedOne(p: Piece)
    requires p.T? ==> GoodToken(p.token)
    ensures Chained([p])
  {
  }

  lemma SymbolsKnown()
    ensures forall op :: OpToken(op).Symbol? ==> OpToken(op).symbol in SYMBOLS
    ensures "(" in SYMBOLS && ")" in SYMBOLS && "-" in SYMBOLS && "++" in SYMBOLS && "--" in SYMBOLS
  {
    assert SYMBOLS[0] == "++" && SYMBOLS[1] == "--" && SYMBOLS[2] == ">=" && SYMBOLS[3] == "<=" && SYMBOLS[4] == "!=";
    assert SYMBOLS[5] == "==" && SYMBOLS[13] == ">" && SYMBOLS[14] == "<" && SYMBOLS[15] == "+" && SYMBOLS[16] == "-";
    assert SYMBOLS[17] == "*" && SYMBOLS[18] == "/" && SYMBOLS[19] == "^" && SYMBOLS[20] == "%";
    assert SYMBOLS[22] == "(" && SYMBOLS[23] == ")";
  }

  lemma GoodOps(op: BinOp, uop: UnOp)
    ensures GoodToken(OpToken(op)) && GoodToken(UnToken(uop))
  {
    SymbolsKnown();
    if IsAndOr(op) {
      GoodWord(OpText(op));
    }
    if uop != Neg {
      GoodWord(UnText(uop));
    }
  }

  lemma GoodWord(w: string)
    requires w in KEYWORDS && forall i :: 0 <= i < |w| ==> 'a' <= w[i] <= 'z'
    ensures GoodToken(Keyword(w))
  {
    AllLetters(w);
  }

  lemma {:induction false} AllLetters(w: string)
    requires forall i :: 0 <= i < |w| ==> 'a' <= w[i] <= 'z'
    ensures WordLen(w) == |w|
  {
    if w != "" {
      AllLetters(w[1..]);
    }
  }

  lemma BracketedOperand(yes: bool, ps: seq<Piece>)
    requires Operand(ps)
    ensures Operand(Bracketed(yes, ps))
  {
    if yes {
      SymbolsKnown();
      ChainedOne(T(Symbol("(")));
      ChainedOne(T(Symbol(")")));
      ChainedAppend([T(Symbol("("))], ps);
      ChainedAppend([T(Symbol("("))] + ps, [T(Symbol(")"))]);
    }
  }

  lemma ChainedOp(mode: Mode, op: BinOp)
    ensures OpPieces(mode, op) != [] && Chained(OpPieces(mode, op))
  {
    GoodOps(op, Neg);
    ChainedOne(T(OpToken(op)));
    ChainedOne(Space);
    ChainedAppend([T(OpToken(op))], [Space]);
    ChainedAppend([Space], [T(OpToken(op))] + [Space]);
    assert [Space] + ([T(OpToken(op))] + [Space]) == [Space, T(OpToken(op)), Space];
    assert OpPieces(mode, op) == [Space, T(OpToken(op)), Space] || OpPieces(mode, op) == [T(OpToken(op))];
  }

  lemma OpOperand(mode: Mode, op: BinOp, a: seq<Piece>, b: seq<Piece>)
    requires Operand(a) && Operand(b)
    ensures Operand(a + OpPieces(mode, op) + b)
  {
    ChainedOp(mode, op);
    var ps := OpPieces(mode, op);
    ChainedAppend(a, ps);
    ChainedAppend(a + ps, b);
  }

  lemma UnOperand(op: UnOp, a: seq<Piece>)
    requires Operand(a)
    ensures Operand(UnPieces(op) + a)
  {
    GoodOps(Add, op);
    ChainedOne(T(UnToken(op)));
    ChainedOne(Space);
    ChainedAppend([T(UnToken(op))], [Space]);
    ChainedAppend([Space], [T(UnToken(op))]);
    assert UnPieces(op) == [Space] + [T(UnToken(op))] || UnPieces(op) == [T(UnToken(op))] + [Space];
    ChainedAppend(UnPieces(op), a);
  }

  lemma ChainedTwo(p: Piece, q: Piece)
    requires (p.T? ==> GoodToken(p.token)) && (q.T? ==> GoodToken(q.token)) && Joins(p, q)
    ensures Chained([p, q])
  {
    ChainedOne(p);
    ChainedOne(q);
    ChainedAppend([p], [q]);
    assert [p] + [q] == [p, q];
  }

  lemma ChainedThree(p: Piece, q: Piece, r: Piece)
    requires p.T? ==> GoodToken(p.token)
    requires q.T? ==> GoodToken(q.token)
    requires r.T? ==> GoodToken(r.token)
    requires Joins(p, q) && Joins(q, r)
    ensures Chained([p, q, r])
  {
    ChainedTwo(q, r);
    ChainedOne(p);
    ChainedAppend([p], [q, r]);
    assert [p] + [q, r] == [p, q, r];
  }

  lemma LeafOperand(mode: Mode, e: Expr)
    requires Printable(e) && !e.Bin? && !e.Un?
    ensures Operand(Pieces(mode, e))
  {
    SymbolsKnown();
    var ps := Pieces(mode, e);
    if |ps| == 3 {
      ChainedThree(ps[0], ps[1], ps[2]);
    } else {
      ChainedOne(ps[0]);
    }
  }

  lemma {:induction false} PiecesOperand(mode: Mode, e: Expr)
    requires Printable(e)
    ensures Operand(Pieces(mode, e))
  {
    match e
    case Bin(op, l, r) =>
      PiecesOperand(mode, l);
      PiecesOperand(mode, r);
      BracketedOperand(LeftBrackets(op, l), Pieces(mode, l));
      BracketedOperand(RightBrackets(op, r), Pieces(mode, r));
      OpOperand(mode, op, Bracketed(LeftBrackets(op, l), Pieces(mode, l)),
                Bracketed(RightBrackets(op, r), Pieces(mode, r)));
    case Un(op, a) =>
      PiecesOperand(mode, a);
      BracketedOperand(a.Bin?, Pieces(mode, a));
      UnOperand(op, Bracketed(a.Bin?, Pieces(mode, a)));
    case _ => LeafOperand(mode, e);
  }

  /** The text of a printed expression is read as exactly the tokens that were meant, in both modes. */
  lemma LexPrinted(mode: Mode, e: Expr)
    requires Printable(e)
    ensures Lex(Render(Pieces(mode, e), false)) == Tokens(e)
  {
    PiecesOperand(mode, e);
    LexRendered(Pieces(mode, e), false);
    PiecesTokens(mode, e);
  }

  // ---- parsing the tokens ----

  /** The parser knows no negative numbers: it reads them as negations. */
  function Canon(e: Expr): Expr {
    match e
    case Num(t) => if Negative(t) then Un(Neg, Num(t[1..])) else e
    case Bin(op, l, r) => Bin(op, Canon(l), Canon(r))
    case Un(op, a) => Un(op, Canon(a))
    case _ => e
  }

  predicate HasNegative(e: Expr) {
    match e
    case Num(t) => Negative(t)
    case Bin(_, l, r) => HasNegative(l) || HasNegative(r)
    case Un(_, a) => HasNegative(a)
    case _ => false
  }

  predicate IsComparisonExpr(e: Expr) {
    e.Bin? && IsComparison(e.op)
  }

  /** Somewhere a comparison is the left operand of a comparison. */
  predicate Chains(e: Expr) {
    match e
    case Bin(op, l, r) => (IsComparison(op) && IsComparisonExpr(l)) || Chains(l) || Chains(r)
    case Un(_, a) => Chains(a)
    case _ => false
  }

  function Level(e: Expr): nat {
    if e.Bin? then Priority(e.op) else 4
  }

  /** What follows does not go on with an expression of a higher level. */
  predicate Ready(level: nat, ts: seq<Token>) {
    ts == [] || (!IsStep(ts[0]) && (BinOpOf(ts[0]).Some? ==> Priority(BinOpOf(ts[0]).value) <= level))
  }

  lemma OpRead(op: BinOp)
    ensures BinOpOf(OpToken(op)) == Some(op) && !IsStep(OpToken(op))
  {
  }

  lemma UnRead(op: UnOp)
    ensures UnOpOf(UnToken(op)) == Some(op)
  {
  }

  /** How a level goes on when it has read an operand that is complete. */
  function Done(level: nat, single: bool, e: Expr, ts: seq<Token>): Parse {
    if level >= 4 || (level == 1 && single) then Parsed(e, ts) else Tail(level, e, ts)
  }

  /** What a higher level has read completely, a lower level goes on with. */
  lemma {:induction false} Lift(level: nat, from: nat, single: bool, e: Expr, ts: seq<Token>, rest: seq<Token>)
    requires level < from <= 4 && ParseAt(from, ts) == Done(from, single, e, rest) && Ready(level, rest)
    ensures ParseAt(level, ts) == Done(level, false, e, rest)
    decreases from
  {
    assert ParseAt(from, ts) == Parsed(e, rest);
    assert ParseAt(from - 1, ts) == Tail(from - 1, e, rest);
    if level < from - 1 {
      Lift(level, from - 1, false, e, ts, rest);
    }
  }

  /** An operand in brackets. */
  lemma InBrackets(level: nat, x: Expr, inner: seq<Token>, ts: seq<Token>)
    requires level <= 4 && Ready(level, ts) && ParseAt(0, inner + ([Symbol(")")] + ts)) == Parsed(x, [Symbol(")")] + ts)
    ensures ParseAt(level, TokensB(true, inner) + ts) == Done(level, false, x, ts)
  {
    var all := TokensB(true, inner) + ts;
    assert all[1..] == inner + ([Symbol(")")] + ts);
    assert ParseUnary(all) == Parsed(x, ts);
    assert ParseAt(4, all) == ParseUnary(all);
    if level < 4 {
      Lift(level, 4, false, x, all, ts);
    }
  }

  lemma Closing(x: Expr, ts: seq<Token>)
    ensures Ready(0, [Symbol(")")] + ts) && Done(0, false, x, [Symbol(")")] + ts) == Parsed(x, [Symbol(")")] + ts)
  {
  }

  /** An expression that needs no more brackets than it got is read back. */
  lemma {:induction false} ReadBack(e: Expr, level: nat, ts: seq<Token>)
    requires !Chains(e) && level <= 4 && level <= Level(e) && Ready(level, ts)
    ensures ParseAt(level, Tokens(e) + ts) == Done(level, Level(e) == 1, Canon(e), ts)
    decreases e, 5 - level
  {
    if level < Level(e) {
      ReadBack(e, level + 1, ts);
      Lift(level, level + 1, Level(e) == 1, Canon(e), Tokens(e) + ts, ts);
    } else if level < 4 {
      ReadBackBin(e, level, ts);
    } else {
      assert ParseAt(4, Tokens(e) + ts) == ParseUnary(Tokens(e) + ts);
      if e.Un? {
        ReadBackUn(e, ts);
      } else {
        ReadBackLeaf(e, ts);
      }
    }
  }

  lemma {:induction false} ReadBackOperand(x: Expr, yes: bool, level: nat, ts: seq<Token>)
    requires !Chains(x) && level <= 4 && (!yes ==> level <= Level(x)) && Ready(level, ts)
    ensures ParseAt(level, TokensB(yes, Tokens(x)) + ts) == Done(level, !yes && Level(x) == 1, Canon(x), ts)
    decreases x, 6
  {
    if yes {
      Closing(Canon(x), ts);
      ReadBack(x, 0, [Symbol(")")] + ts);
      InBrackets(level, Canon(x), Tokens(x), ts);
    } else {
      ReadBack(x, level, ts);
    }
  }

  /** The tokens behind the left operand. */
  function RightTokens(e: Expr, ts: seq<Token>): seq<Token>
    requires e.Bin?
  {
    TokensB(RightBrackets(e.op, e.right), Tokens(e.right)) + ts
  }

  lemma BinShape(e: Expr, ts: seq<Token>)
    requires e.Bin?
    ensures Tokens(e) + ts == TokensB(LeftBrackets(e.op, e.left), Tokens(e.left)) +
            ([OpToken(e.op)] + RightTokens(e, ts))
    ensures ([OpToken(e.op)] + RightTokens(e, ts))[1..] == RightTokens(e, ts)
  {
    FourTokens(TokensB(LeftBrackets(e.op, e.left), Tokens(e.left)), [OpToken(e.op)],
               TokensB(RightBrackets(e.op, e.right), Tokens(e.right)), ts);
  }

  lemma FourTokens(a: seq<Token>, b: seq<Token>, c: seq<Token>, d: seq<Token>)
    ensures (a + (b + c)) + d == a + (b + (c + d))
  {
  }

  lemma UnShape(e: Expr, ts: seq<Token>)
    requires e.Un?
    ensures (Tokens(e) + ts)[0] == UnToken(e.uop) && (Tokens(e) + ts)[1..] == TokensB(e.arg.Bin?, Tokens(e.arg)) + ts
  {
    FirstOf(UnToken(e.uop), TokensB(e.arg.Bin?, Tokens(e.arg)), ts);
  }

  lemma FirstOf(t: Token, a: seq<Token>, b: seq<Token>)
    ensures ([t] + a + b)[0] == t && ([t] + a + b)[1..] == a + b
  {
  }

  lemma {:induction false} ReadBackBin(e: Expr, level: nat, ts: seq<Token>)
    requires !Chains(e) && e.Bin? && level == Level(e) && Ready(level, ts)
    ensures ParseAt(level, Tokens(e) + ts) == Done(level, level == 1, Canon(e), ts)
    decreases e, 0
  {
    var rest := [OpToken(e.op)] + RightTokens(e, ts);
    OpRead(e.op);
    BinShape(e, ts);
    ReadBackOperand(e.left, LeftBrackets(e.op, e.left), level, rest);
    ReadBackOperand(e.right, RightBrackets(e.op, e.right), level + 1, ts);
    assert Done(level + 1, !RightBrackets(e.op, e.right) && Level(e.right) == 1, Canon(e.right), ts) ==
           Parsed(Canon(e.right), ts);
  }

  lemma {:induction false} ReadBackUn(e: Expr, ts: seq<Token>)
    requires !Chains(e) && e.Un? && Ready(4, ts)
    ensures ParseUnary(Tokens(e) + ts) == Parsed(Canon(e), ts)
    decreases e, 0
  {
    UnRead(e.uop);
    var arg := TokensB(e.arg.Bin?, Tokens(e.arg)) + ts;
    UnShape(e, ts);
    ReadBackOperand(e.arg, e.arg.Bin?, 4, ts);
    assert ParseAt(4, arg) == ParseUnary(arg);
  }

  lemma ReadSingle(t: Token, ts: seq<Token>)
    requires (t.Id? || t.Text? || t.Number?) && Ready(4, ts)
    ensures ParseUnary([t] + ts) ==
            Parsed(if t.Id? then Deref(t.name, Plain) else if t.Text? then Str(t.value) else Num(t.digits), ts)
  {
    var all := [t] + ts;
    assert all[0] == t && all[1..] == ts;
    assert |all| > 1 ==> all[1] == ts[0];
    assert ParseUnary(all) == ParseBracket(all) == ParseSingle(all);
  }

  lemma ReadPre(inc: Inc, x: string, ts: seq<Token>)
    requires inc == PreInc || inc == PreDec
    ensures ParseUnary([IncToken(inc), Id(x)] + ts) == Parsed(Deref(x, inc), ts)
  {
    var all := [IncToken(inc), Id(x)] + ts;
    assert all[0] == IncToken(inc) && all[1] == Id(x) && all[2..] == ts;
    assert ParseUnary(all) == ParseBracket(all) == ParseSingle(all);
  }

  lemma ReadPost(inc: Inc, x: string, ts: seq<Token>)
    requires inc == PostInc || inc == PostDec
    ensures ParseUnary([Id(x), IncToken(inc)] + ts) == Parsed(Deref(x, inc), ts)
  {
    var all := [Id(x), IncToken(inc)] + ts;
    assert all[0] == Id(x) && all[1] == IncToken(inc) && all[2..] == ts;
    assert ParseUnary(all) == ParseBracket(all) == ParseSingle(all);
  }

  lemma ReadNegative(d: string, ts: seq<Token>)
    requires Ready(4, ts)
    ensures ParseUnary([Symbol("-"), Number(d)] + ts) == Parsed(Un(Neg, Num(d)), ts)
  {
    var all := [Symbol("-"), Number(d)] + ts;
    assert all[0] == Symbol("-") && all[1..] == [Number(d)] + ts;
    ReadSingle(Number(d), ts);
  }

  lemma ReadBackLeaf(e: Expr, ts: seq<Token>)
    requires !e.Bin? && !e.Un? && Ready(4, ts)
    ensures ParseUnary(Tokens(e) + ts) == Parsed(Canon(e), ts)
  {
    match e
    case Str(s) => ReadSingle(Text(s), ts);
    case Num(t) =>
      if Negative(t) {
        ReadNegative(t[1..], ts);
      } else {
        ReadSingle(Number(t), ts);
      }
    case Deref(x, inc) =>
      if inc == Plain {
        ReadSingle(Id(x), ts);
      } else if inc == PreInc || inc == PreDec {
        ReadPre(inc, x, ts);
      } else {
        ReadPost(inc, x, ts);
      }
  }

  // ---- what is not read back ----

  /** An error, or a comparison operator that nobody wants. */
  predicate Stuck(level: nat, r: Parse) {
    r.Error? || (level <= 1 && r.Parsed? && r.rest != [] && IsOpAt(1, r.rest[0]))
  }

  lemma StuckInBrackets(level: nat, inner: seq<Token>, ts: seq<Token>)
    requires level <= 4 && Stuck(0, ParseAt(0, inner + ([Symbol(")")] + ts)))
    ensures ParseAt(level, TokensB(true, inner) + ts).Error?
  {
    var all := TokensB(true, inner) + ts;
    assert all[1..] == inner + ([Symbol(")")] + ts);
    assert !IsOpAt(1, Symbol(")"));
    assert ParseUnary(all) == ParseBracket(all);
    assert ParseBracket(all).Error?;
    assert ParseAt(4, all) == ParseUnary(all);
    LiftError(level, all);
  }

  lemma {:induction false} LiftError(level: nat, ts: seq<Token>)
    requires level <= 4 && ParseAt(4, ts).Error?
    ensures ParseAt(level, ts).Error?
    decreases 4 - level
  {
    if level < 4 {
      LiftError(level + 1, ts);
    }
  }

  lemma {:induction false} Fails(e: Expr, level: nat, ts: seq<Token>)
    requires Chains(e) && level <= 4 && level <= Level(e) && Ready(level, ts)
    ensures Stuck(level, ParseAt(level, Tokens(e) + ts))
    decreases e, 5 - level
  {
    if level < Level(e) {
      Fails(e, level + 1, ts);
    } else if level < 4 {
      FailsBin(e, level, ts);
    } else {
      FailsUn(e, ts);
    }
  }

  lemma {:induction false} FailsUn(e: Expr, ts: seq<Token>)
    requires Chains(e) && e.Un? && Ready(4, ts)
    ensures ParseAt(4, Tokens(e) + ts).Error?
    decreases e, 0
  {
    UnRead(e.uop);
    UnShape(e, ts);
    var arg := TokensB(e.arg.Bin?, Tokens(e.arg)) + ts;
    FailsOperand(e.arg, e.arg.Bin?, 4, ts);
    assert ParseAt(4, arg) == ParseUnary(arg);
    assert ParseAt(4, Tokens(e) + ts) == ParseUnary(Tokens(e) + ts);
  }

  lemma {:induction false} FailsOperand(x: Expr, yes: bool, level: nat, ts: seq<Token>)
    requires Chains(x) && level <= 4 && (!yes ==> level <= Level(x)) && Ready(level, ts)
    ensures Stuck(level, ParseAt(level, TokensB(yes, Tokens(x)) + ts))
    decreases x, 6
  {
    if yes {
      Closing(x, ts);
      Fails(x, 0, [Symbol(")")] + ts);
      StuckInBrackets(level, Tokens(x), ts);
    } else {
      Fails(x, level, ts);
    }
  }

  lemma {:induction false} FailsBin(e: Expr, level: nat, ts: seq<Token>)
    requires Chains(e) && e.Bin? && level == Level(e) && Ready(level, ts)
    ensures Stuck(level, ParseAt(level, Tokens(e) + ts))
    decreases e, 1
  {
    var rest := [OpToken(e.op)] + RightTokens(e, ts);
    OpRead(e.op);
    BinShape(e, ts);
    if Chains(e.left) {
      FailsOperand(e.left, LeftBrackets(e.op, e.left), level, rest);
    } else {
      ReadBackOperand(e.left, LeftBrackets(e.op, e.left), level, rest);
      if !(level == 1 && IsComparisonExpr(e.left)) {
        FailsRight(e, level, ts, rest);
      }
    }
  }

  /** The right operand is not read back. */
  lemma {:induction false} FailsRight(e: Expr, level: nat, ts: seq<Token>, rest: seq<Token>)
    requires e.Bin? && Chains(e.right) && level == Level(e) && Ready(level, ts) &&
             rest == [OpToken(e.op)] + RightTokens(e, ts)
    ensures Stuck(level, Tail(level, Canon(e.left), rest))
    decreases e, 0
  {
    OpRead(e.op);
    assert rest[1..] == RightTokens(e, ts);
    FailsOperand(e.right, RightBrackets(e.op, e.right), level + 1, ts);
    TailStuck(level, Canon(e.left), rest);
  }

  lemma TailStuck(level: nat, left: Expr, ts: seq<Token>)
    requires level < 4 && ts != [] && IsOpAt(level, ts[0]) && Stuck(level + 1, ParseAt(level + 1, ts[1..]))
    ensures Stuck(level, Tail(level, left, ts))
  {
  }

  // ---- the round trip ----

  lemma {:induction false} CanonSame(e: Expr)
    ensures Canon(e) == e <==> !HasNegative(e)
  {
    match e
    case Bin(_, l, r) =>
      CanonSame(l);
      CanonSame(r);
    case Un(_, a) => CanonSame(a);
    case _ =>
  }

  /** Printing an expression, in either mode, and parsing the text gives the same tree back, up to the reading of
      negative numbers, if and only if nowhere a comparison is the left operand of a comparison. */
  lemma PrintThenParse(mode: Mode, e: Expr)
    requires Printable(e)
    ensures ParseAt(0, Lex(Render(Pieces(mode, e), false))) == Parsed(Canon(e), []) <==> !Chains(e)
  {
    LexPrinted(mode, e);
    assert Tokens(e) + [] == Tokens(e);
    if Chains(e) {
      Fails(e, 0, []);
    } else {
      ReadBack(e, 0, []);
    }
  }

  /** The very same tree comes back if and only if there are no negative numbers either. */
  lemma PrintThenParseSame(mode: Mode, e: Expr)
    requires Printable(e)
    ensures ParseAt(0, Lex(Render(Pieces(mode, e), false))) == Parsed(e, []) <==> !Chains(e) && !HasNegative(e)
  {
    CanonSame(e);
    LexPrinted(mode, e);
    assert Tokens(e) + [] == Tokens(e);
    if Chains(e) {
      Fails(e, 0, []);
    } else {
      ReadBack(e, 0, []);
    }
  }

  /** Parses a text that consists of an expression. */
  method ParseText(text: string) returns (r: Option<Expr>)
    ensures var p := ParseAt(0, Lex(text));
            r == if p.Parsed? && p.rest == [] then Some(p.e) else None
  {
    var tokenizer := new Tokenizer(text);
    var tokens := PullAll(tokenizer);
    var parser := new Parser(tokens);
    r := parser.ParseExpression();
    assert |parser.View()| == |tokens| - parser.pos;
    if parser.errors || parser.pos < |tokens| {
      r := None;
    }
  }

  /** The printer and the parser together. */
  method PrintAndParse(mode: Mode, e: Expr) returns (r: Option<Expr>)
    requires Printable(e)
    ensures r == Some(Canon(e)) <==> !Chains(e)
  {
    var printer := new Printer(mode);
    printer.PrintExpression(e);
    assert printer.pieces == Pieces(mode, e);
    PrintThenParse(mode, e);
    r := ParseText(printer.text);
  }
}
