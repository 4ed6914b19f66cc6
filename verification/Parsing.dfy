/** The recursive-descent parser for expressions (pkg/parser/parser.go). */
module Parsing {
  import opened Ast
  import opened Lexing
  import opened Printing

  /** An expression and the tokens behind it; no expression, and no token consumed; or a syntax error. */
  datatype Parse = Parsed(e: Expr, rest: seq<Token>) | Nothing | Error

  /** The grammar has a level for logic operators, comparisons, sums and products each, and one for everything else. */
  function BinOpOf(t: Token): Option<BinOp> {
    match t
    case Keyword(w) => if w == "or" then Some(Or) else if w == "and" then Some(And) else None
    case Symbol(s) =>
      if s == "==" then Some(Eq) else if s == "!=" then Some(Ne) else if s == "<=" then Some(Le)
      else if s == ">=" then Some(Ge) else if s == "<" then Some(Lt) else if s == ">" then Some(Gt)
      else if s == "+" then Some(Add) else if s == "-" then Some(Sub)
      else if s == "*" then Some(Mul) else if s == "/" then Some(Div) else if s == "%" then Some(Mod)
      else if s == "^" then Some(Pow) else None
    case _ => None
  }

  function UnOpOf(t: Token): Option<UnOp> {
    match t
    case Keyword(w) =>
      if w == "not" then Some(Not) else if w == "abs" then Some(Abs) else if w == "sqrt" then Some(Sqrt)
      else if w == "sin" then Some(Sin) else if w == "cos" then Some(Cos) else if w == "tan" then Some(Tan)
      else if w == "asin" then Some(Asin) else if w == "acos" then Some(Acos) else if w == "atan" then Some(Atan)
      else None
    case Symbol(s) => if s == "-" then Some(Neg) else None
    case _ => None
  }

  predicate IsOpAt(level: nat, t: Token) {
    BinOpOf(t).Some? && Priority(BinOpOf(t).value) == level
  }

  predicate IsStep(t: Token) {
    t == Symbol("++") || t == Symbol("--")
  }

  function ParseAt(level: nat, ts: seq<Token>): (r: Parse)
    requires level <= 4
    ensures r.Parsed? ==> |r.rest| < |ts|
    decreases |ts|, 4 - level, 2
  {
    if level == 4 then ParseUnary(ts)
    else
      match ParseAt(level + 1, ts)
      case Parsed(e, rest) => Tail(level, e, rest)
      case r => r
  }

  /** Operators of a level with their right operands; there is at most one comparison. */
  function Tail(level: nat, left: Expr, ts: seq<Token>): (r: Parse)
    requires level < 4
    ensures r.Parsed? ==> |r.rest| <= |ts|
    decreases |ts|, 4 - level, 1
  {
    if ts == [] || !IsOpAt(level, ts[0]) then Parsed(left, ts)
    else
      match ParseAt(level + 1, ts[1..])
      case Parsed(right, rest) =>
        var e := Bin(BinOpOf(ts[0]).value, left, right);
        if level == 1 then Parsed(e, rest) else Tail(level, e, rest)
      case _ => Error
  }

  function ParseUnary(ts: seq<Token>): (r: Parse)
    ensures r.Parsed? ==> |r.rest| < |ts|
    decreases |ts|, 0, 1
  {
    if ts != [] && UnOpOf(ts[0]).Some? then
      match ParseUnary(ts[1..])
      case Parsed(e, rest) => Parsed(Un(UnOpOf(ts[0]).value, e), rest)
      case _ => Error
    else ParseBracket(ts)
  }

  function ParseBracket(ts: seq<Token>): (r: Parse)
    ensures r.Parsed? ==> |r.rest| < |ts|
    decreases |ts|, 0, 0
  {
    if ts != [] && ts[0] == Symbol("(") then
      match ParseAt(0, ts[1..])
      case Parsed(e, rest) => if rest != [] && rest[0] == Symbol(")") then Parsed(e, rest[1..]) else Error
      case _ => Error
    else ParseSingle(ts)
  }

  function ParseSingle(ts: seq<Token>): (r: Parse)
    ensures r.Parsed? ==> |r.rest| < |ts|
  {
    if ts == [] then Nothing
    else if IsStep(ts[0]) then
      if |ts| > 1 && ts[1].Id? then Parsed(Deref(ts[1].name, if ts[0] == Symbol("++") then PreInc else PreDec), ts[2..])
      else Error
    else
      match ts[0]
      case Id(x) =>
        if |ts| > 1 && IsStep(ts[1]) then Parsed(Deref(x, if ts[1] == Symbol("++") then PostInc else PostDec), ts[2..])
        else Parsed(Deref(x, Plain), ts[1..])
      case Text(v) => Parsed(Str(v), ts[1..])
      case Number(d) => Parsed(Num(d), ts[1..])
      case _ => Nothing
  }

  // ---- the parser ----

  /** Stands for a missing operand; a result with errors is thrown away. */
  const MISSING := Num("")

  /** What a parsing method that starts without errors may do. */
  ghost predicate Did(r: Parse, before: seq<Token>, e: Option<Expr>, after: seq<Token>, errors: bool) {
    && (r.Parsed? ==> !errors && e == Some(r.e) && after == r.rest)
    && (r.Nothing? ==> !errors && e == None && after == before)
    && (r.Error? ==> errors)
  }

  /** An expression takes at least one token. */
  predicate Shrunk(before: seq<Token>, e: Option<Expr>, after: seq<Token>) {
    |after| <= |before| && (e.Some? ==> |after| < |before|)
  }

  /** Pulls tokens from the tokenizer until the end, and drops the whitespace. */
  method PullAll(tokenizer: Tokenizer) returns (tokens: seq<Token>)
    modifies tokenizer
    ensures tokens == Lex(old(tokenizer.remaining))
    decreases |tokenizer.remaining|
  {
    var t := Pull(tokenizer);
    if t.EOF? {
      return [];
    }
    var rest := PullAll(tokenizer);
    tokens := if t.Whitespace? then rest else [t] + rest;
  }

  class Parser {
    const tokens: seq<Token>
    var pos: nat
    var errors: bool

    ghost predicate Valid()
      reads this
    {
      pos <= |tokens|
    }

    /** The tokens from the current one on. */
    ghost function View(): seq<Token>
      reads this
      requires Valid()
    {
      tokens[pos..]
    }

    constructor (tokens: seq<Token>)
      ensures Valid() && View() == tokens && this.tokens == tokens && !errors
    {
      this.tokens, pos, errors := tokens, 0, false;
    }

    function Current(): (t: Token)
      reads this
      requires Valid()
      ensures View() != [] ==> t == View()[0]
      ensures View() == [] ==> t == EOF
    {
      if pos < |tokens| then tokens[pos] else EOF
    }

    function NextToken(): (t: Token)
      reads this
      requires Valid()
      ensures |View()| > 1 ==> t == View()[1]
      ensures |View()| <= 1 ==> t == EOF
    {
      if pos + 1 < |tokens| then tokens[pos + 1] else EOF
    }

    method Advance()
      requires Valid()
      modifies this`pos
      ensures Valid() && View() == if old(View()) == [] then [] else old(View())[1..]
    {
      if pos < |tokens| {
        pos := pos + 1;
      }
    }

    method ParseExpression() returns (e: Option<Expr>)
      requires Valid()
      modifies this
      ensures Valid() && Shrunk(old(View()), e, View())
      ensures if old(errors) then errors else Did(ParseAt(0, old(View())), old(View()), e, View(), errors)
      decreases |View()|, 7
    {
      e := ParseLogicExpression();
    }

    method ParseLogicExpression() returns (e: Option<Expr>)
      requires Valid()
      modifies this
      ensures Valid() && Shrunk(old(View()), e, View())
      ensures if old(errors) then errors else Did(ParseAt(0, old(View())), old(View()), e, View(), errors)
      decreases |View()|, 6
    {
      e := ParseCompareExpression();
      if e == None {
        return;
      }
      while Current() == Keyword("or") || Current() == Keyword("and")
        invariant Valid() && e.Some? && Shrunk(old(View()), e, View())
        invariant if old(errors) then errors
                  else errors ==> ParseAt(0, old(View())).Error?
        invariant !errors ==> ParseAt(0, old(View())) == Tail(0, e.value, View())
        decreases |View()|
      {
        var op := BinOpOf(Current()).value;
        Advance();
        var right := ParseCompareExpression();
        if right == None {
          errors := true;
        }
        e := Some(Bin(op, e.value, if right == None then MISSING else right.value));
      }
    }

    method ParseCompareExpression() returns (e: Option<Expr>)
      requires Valid()
      modifies this
      ensures Valid() && Shrunk(old(View()), e, View())
      ensures if old(errors) then errors else Did(ParseAt(1, old(View())), old(View()), e, View(), errors)
      decreases |View()|, 5
    {
      e := ParseSumExpression();
      if e == None {
        return;
      }
      assert !errors ==> ParseAt(1, old(View())) == Tail(1, e.value, View());
      if Current().Symbol? && IsOpAt(1, Current()) {
        var op := BinOpOf(Current()).value;
        Advance();
        var right := ParseSumExpression();
        if right == None {
          errors := true;
        }
        e := Some(Bin(op, e.value, if right == None then MISSING else right.value));
      }
    }

    method ParseSumExpression() returns (e: Option<Expr>)
      requires Valid()
      modifies this
      ensures Valid() && Shrunk(old(View()), e, View())
      ensures if old(errors) then errors else Did(ParseAt(2, old(View())), old(View()), e, View(), errors)
      decreases |View()|, 4
    {
      e := ParseProdExpression();
      if e == None {
        return;
      }
      while Current().Symbol? && IsOpAt(2, Current())
        invariant Valid() && e.Some? && Shrunk(old(View()), e, View())
        invariant if old(errors) then errors
                  else errors ==> ParseAt(2, old(View())).Error?
        invariant !errors ==> ParseAt(2, old(View())) == Tail(2, e.value, View())
        decreases |View()|
      {
        var op := BinOpOf(Current()).value;
        Advance();
        var right := ParseProdExpression();
        if right == None {
          errors := true;
        }
        e := Some(Bin(op, e.value, if right == None then MISSING else right.value));
      }
    }

    method ParseProdExpression() returns (e: Option<Expr>)
      requires Valid()
      modifies this
      ensures Valid() && Shrunk(old(View()), e, View())
      ensures if old(errors) then errors else Did(ParseAt(3, old(View())), old(View()), e, View(), errors)
      decreases |View()|, 3
    {
      e := ParseUnaryExpression();
      if e == None {
        return;
      }
      while Current().Symbol? && IsOpAt(3, Current())
        invariant Valid() && e.Some? && Shrunk(old(View()), e, View())
        invariant if old(errors) then errors
                  else errors ==> ParseAt(3, old(View())).Error?
        invariant !errors ==> ParseAt(3, old(View())) == Tail(3, e.value, View())
        decreases |View()|
      {
        var op := BinOpOf(Current()).value;
        Advance();
        var right := ParseUnaryExpression();
        if right == None {
          errors := true;
        }
        e := Some(Bin(op, e.value, if right == None then MISSING else right.value));
      }
    }

    method ParseUnaryExpression() returns (e: Option<Expr>)
      requires Valid()
      modifies this
      ensures Valid() && Shrunk(old(View()), e, View())
      ensures if old(errors) then errors else Did(ParseAt(4, old(View())), old(View()), e, View(), errors)
      decreases |View()|, 2
    {
      assert ParseAt(4, View()) == ParseUnary(View());
      if UnOpOf(Current()).Some? {
        var op := UnOpOf(Current()).value;
        Advance();
        assert ParseAt(4, View()) == ParseUnary(View());
        var arg := ParseUnaryExpression();
        if arg == None {
          errors := true;
        }
        e := Some(Un(op, if arg == None then MISSING else arg.value));
      } else {
        e := ParseBracketExpression();
      }
    }

    method ParseBracketExpression() returns (e: Option<Expr>)
      requires Valid()
      modifies this
      ensures Valid() && Shrunk(old(View()), e, View())
      ensures if old(errors) then errors else Did(ParseBracket(old(View())), old(View()), e, View(), errors)
      decreases |View()|, 1
    {
      if Current() == Symbol("(") {
        Advance();
        e := ParseExpression();
        if e == None {
          errors := true;
        }
        if Current() != Symbol(")") {
          errors := true;
        }
        Advance();
      } else {
        e := ParseSingleExpression();
      }
    }

    method ParseSingleExpression() returns (e: Option<Expr>)
      requires Valid()
      modifies this
      ensures Valid() && Shrunk(old(View()), e, View())
      ensures if old(errors) then errors else Did(ParseSingle(old(View())), old(View()), e, View(), errors)
      decreases |View()|, 0
    {
      if IsStep(Current()) {
        var inc := if Current() == Symbol("++") then PreInc else PreDec;
        Advance();
        var name := "";
        if Current().Id? {
          name := Current().name;
        } else {
          errors := true;
        }
        Advance();
        return Some(Deref(name, inc));
      }
      if IsStep(NextToken()) && Current().Id? {
        e := Some(Deref(Current().name, if NextToken() == Symbol("++") then PostInc else PostDec));
        Advance();
        Advance();
        return;
      }
      match Current() {
        case Id(x) => e := Some(Deref(x, Plain)); Advance();
        case Text(v) => e := Some(Str(v)); Advance();
        case Number(d) => e := Some(Num(d)); Advance();
        case _ => e := None;
      }
    }
  }
}
