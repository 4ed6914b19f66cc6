/** The grammar of expressions, written down without a parser, and that the parser reads exactly it
    (pkg/parser/parser.go). */
module Grammar {
  import opened Ast
  import opened Lexing
  import opened Printing
  import opened Parsing

  /** The operators of the four levels, from the one that binds loosest on. */
  function OperatorsOf(level: nat): map<Token, BinOp> {
    if level == 0 then map[Keyword("or") := Or, Keyword("and") := And]
    else if level == 1 then map[Symbol("==") := Eq, Symbol("!=") := Ne, Symbol("<=") := Le, Symbol(">=") := Ge,
                                Symbol("<") := Lt, Symbol(">") := Gt]
    else if level == 2 then map[Symbol("+") := Add, Symbol("-") := Sub]
    else if level == 3 then map[Symbol("*") := Mul, Symbol("/") := Div, Symbol("%") := Mod, Symbol("^") := Pow]
    else map[]
  }

  const PREFIXES: map<Token, UnOp> := map[
    Symbol("-") := Neg, Keyword("not") := Not, Keyword("abs") := Abs, Keyword("sqrt") := Sqrt, Keyword("sin") := Sin,
    Keyword("cos") := Cos, Keyword("tan") := Tan, Keyword("asin") := Asin, Keyword("acos") := Acos,
    Keyword("atan") := Atan]

  /** Constants, and variables with at most one increment or decrement. */
  predicate IsAtom(ts: seq<Token>, e: Expr) {
    match e
    case Str(v) => ts == [Text(v)]
    case Num(d) => ts == [Number(d)]
    case Deref(x, Plain) => ts == [Id(x)]
    case Deref(x, PreInc) => ts == [Symbol("++"), Id(x)]
    case Deref(x, PreDec) => ts == [Symbol("--"), Id(x)]
    case Deref(x, PostInc) => ts == [Id(x), Symbol("++")]
    case Deref(x, PostDec) => ts == [Id(x), Symbol("--")]
    case _ => false
  }

  /** The tokens `ts` are the expression `e`, with operators of this level or those that bind tighter outside of
      brackets. Operators of a level are grouped to the left; of comparisons there is at most one. */
  ghost predicate Derives(level: nat, ts: seq<Token>, e: Expr)
    requires level <= 5
    decreases |ts|, 5 - level
  {
    if level == 5 then
      IsAtom(ts, e) ||
      (|ts| >= 2 && ts[0] == Symbol("(") && ts[|ts| - 1] == Symbol(")") && Derives(0, ts[1..|ts| - 1], e))
    else if level == 4 then
      Derives(5, ts, e) ||
      (ts != [] && ts[0] in PREFIXES && e.Un? && e.uop == PREFIXES[ts[0]] && Derives(4, ts[1..], e.arg))
    else
      Derives(level + 1, ts, e) || exists k: nat :: Splits(level, ts, e, k)
  }

  /** The expression is an operation, and its operator stands at place `k`. */
  ghost predicate Splits(level: nat, ts: seq<Token>, e: Expr, k: nat)
    requires level <= 3
    decreases |ts|, 0
  {
    && 0 < k < |ts| && ts[k] in OperatorsOf(level) && e.Bin? && e.op == OperatorsOf(level)[ts[k]]
    && Derives(if level == 1 then 2 else level, ts[..k], e.left) && Derives(level + 1, ts[k + 1..], e.right)
  }

  // ---- tokens ----

  lemma OperatorsAgree(t: Token, level: nat)
    requires level <= 3
    ensures t in OperatorsOf(level) <==> IsOpAt(level, t)
    ensures t in OperatorsOf(level) ==> BinOpOf(t) == Some(OperatorsOf(level)[t]) && !IsStep(t)
  {
    match level
    case 0 =>
    case 1 =>
    case 2 =>
    case _ => assert level == 3;
  }

  lemma PrefixesAgree(t: Token)
    ensures t in PREFIXES <==> UnOpOf(t).Some?
    ensures t in PREFIXES ==> UnOpOf(t) == Some(PREFIXES[t]) && t != Symbol("(")
  {
  }

  /** An expression of this level cannot go on here. */
  predicate Closes(level: nat, rest: seq<Token>) {
    rest == [] ||
    (!IsStep(rest[0]) && forall l: nat {:trigger OperatorsOf(l)} ::
       l <= 3 && (l > level || l == level == 1) ==> rest[0] !in OperatorsOf(l))
  }

  lemma ClosesHigher(level: nat, rest: seq<Token>)
    requires Closes(level, rest) && level < 3
    ensures Closes(level + 1, rest) && (rest != [] ==> !IsOpAt(level + 1, rest[0]))
  {
    if rest != [] {
      OperatorsAgree(rest[0], level + 1);
      assert rest[0] !in OperatorsOf(level + 1);
    }
  }

  lemma OperatorCloses(level: nat, t: Token, rest: seq<Token>)
    requires level <= 3 && t in OperatorsOf(level)
    ensures level != 1 ==> Closes(level, [t] + rest)
    ensures level == 1 ==> Closes(2, [t] + rest) && !IsOpAt(2, t)
  {
    OperatorsAgree(t, level);
    forall l: nat | l <= 3 && l != level ensures t !in OperatorsOf(l) {
      OperatorsAgree(t, l);
    }
    if level == 1 {
      OperatorsAgree(t, 2);
    }
  }

  // ---- what is in the grammar is read ----

  /** What the parser makes of an expression of a level that stands in front of some tokens. */
  ghost predicate ReadAs(level: nat, ts: seq<Token>, e: Expr, rest: seq<Token>)
    requires level <= 5
  {
    if level == 5 then ParseBracket(ts) == Parsed(e, rest)
    else if level == 4 || level == 1 then ParseAt(level, ts) == Parsed(e, rest)
    else ParseAt(level, ts) == Tail(level, e, rest)
  }

  lemma ReadAtom(ts: seq<Token>, e: Expr, rest: seq<Token>)
    requires IsAtom(ts, e) && (rest != [] ==> !IsStep(rest[0]))
    ensures ParseBracket(ts + rest) == Parsed(e, rest) && !(ts[0] in PREFIXES)
  {
    var all := ts + rest;
    assert all[|ts|..] == rest && all[0] == ts[0];
    assert |ts| > 1 ==> all[1] == ts[1];
    assert |ts| == 1 && rest != [] ==> all[1] == rest[0];
    PrefixesAgree(ts[0]);
  }

  lemma {:induction false} Complete(level: nat, ts: seq<Token>, e: Expr, rest: seq<Token>)
    requires level <= 5 && Derives(level, ts, e) && Closes(level, rest)
    ensures ReadAs(level, ts + rest, e, rest)
    ensures level == 5 ==> ts != [] && ts[0] !in PREFIXES
    decreases |ts|, 5 - level, 1
  {
    if level == 5 {
      if IsAtom(ts, e) {
        ReadAtom(ts, e, rest);
      } else {
        CompleteBrackets(ts, e, rest);
      }
    } else if level == 4 {
      CompletePrefix(ts, e, rest);
    } else if Derives(level + 1, ts, e) {
      CompleteLift(level, ts, e, rest);
    } else {
      var k: nat :| Splits(level, ts, e, k);
      CompleteSplit(level, ts, e, k, rest);
    }
  }

  lemma {:induction false} CompleteBrackets(ts: seq<Token>, e: Expr, rest: seq<Token>)
    requires |ts| >= 2 && ts[0] == Symbol("(") && ts[|ts| - 1] == Symbol(")") && Derives(0, ts[1..|ts| - 1], e)
    ensures ParseBracket(ts + rest) == Parsed(e, rest) && ts[0] !in PREFIXES
    decreases |ts|, 0, 0
  {
    var inner, close := ts[1..|ts| - 1], [Symbol(")")] + rest;
    assert (ts + rest)[1..] == inner + close && close[1..] == rest;
    PrefixesAgree(ts[0]);
    forall l: nat | l <= 3 ensures Symbol(")") !in OperatorsOf(l) {
    }
    Complete(0, inner, e, close);
    OperatorsAgree(Symbol(")"), 0);
  }

  lemma {:induction false} CompletePrefix(ts: seq<Token>, e: Expr, rest: seq<Token>)
    requires Derives(4, ts, e) && Closes(4, rest)
    ensures ParseAt(4, ts + rest) == Parsed(e, rest)
    decreases |ts|, 1, 0
  {
    if Derives(5, ts, e) {
      Complete(5, ts, e, rest);
      assert (ts + rest)[0] == ts[0];
      PrefixesAgree(ts[0]);
    } else {
      assert (ts + rest)[0] == ts[0] && (ts + rest)[1..] == ts[1..] + rest;
      PrefixesAgree(ts[0]);
      CompletePrefix(ts[1..], e.arg, rest);
      assert ParseUnary(ts[1..] + rest) == Parsed(e.arg, rest);
    }
  }

  lemma {:induction false} CompleteLift(level: nat, ts: seq<Token>, e: Expr, rest: seq<Token>)
    requires level <= 3 && Derives(level + 1, ts, e) && Closes(level, rest)
    ensures ReadAs(level, ts + rest, e, rest)
    decreases |ts|, 5 - level, 0
  {
    if level < 3 {
      ClosesHigher(level, rest);
    }
    Complete(level + 1, ts, e, rest);
    assert ParseAt(level + 1, ts + rest) == Parsed(e, rest);
    if level == 1 && rest != [] {
      OperatorsAgree(rest[0], 1);
      assert rest[0] !in OperatorsOf(1);
    }
  }

  lemma {:induction false} CompleteSplit(level: nat, ts: seq<Token>, e: Expr, k: nat, rest: seq<Token>)
    requires level <= 3 && Splits(level, ts, e, k) && Closes(level, rest)
    ensures ReadAs(level, ts + rest, e, rest)
    decreases |ts|, 5 - level, 0
  {
    var left, right := ts[..k], ts[k + 1..];
    var more := [ts[k]] + (right + rest);
    assert ts + rest == left + more && more[1..] == right + rest;
    OperatorsAgree(ts[k], level);
    OperatorCloses(level, ts[k], right + rest);
    Complete(if level == 1 then 2 else level, left, e.left, more);
    if level < 3 {
      ClosesHigher(level, rest);
    }
    Complete(level + 1, right, e.right, rest);
    assert ParseAt(level + 1, right + rest) == Parsed(e.right, rest);
    if level == 1 {
      assert ParseAt(2, ts + rest) == Parsed(e.left, more);
    }
  }

  // ---- what is read is in the grammar ----

  lemma AtomSound(ts: seq<Token>, e: Expr, rest: seq<Token>)
    requires ParseSingle(ts) == Parsed(e, rest)
    ensures |rest| <= |ts| && rest == ts[|ts| - |rest|..] && IsAtom(ts[..|ts| - |rest|], e)
  {
    if IsStep(ts[0]) {
      assert ts[..2] == [ts[0], ts[1]];
    } else {
      assert ts[..1] == [ts[0]] && (|ts| > 1 ==> ts[..2] == [ts[0], ts[1]]);
    }
  }

  /** The tokens that were read. */
  function Taken(ts: seq<Token>, rest: seq<Token>): seq<Token>
    requires |rest| <= |ts|
  {
    ts[..|ts| - |rest|]
  }

  ghost predicate Reads(level: nat, ts: seq<Token>, e: Expr, rest: seq<Token>)
    requires level <= 5
  {
    |rest| <= |ts| && rest == ts[|ts| - |rest|..] && Derives(level, Taken(ts, rest), e)
  }

  lemma {:induction false} Sound(level: nat, ts: seq<Token>)
    requires level <= 4 && ParseAt(level, ts).Parsed?
    ensures Reads(level, ts, ParseAt(level, ts).e, ParseAt(level, ts).rest)
    decreases |ts|, 5 - level, 1
  {
    if level == 4 {
      UnarySound(ts);
    } else {
      Sound(level + 1, ts);
      var r := ParseAt(level + 1, ts);
      if level != 1 {
        assert Derives(level, Taken(ts, r.rest), r.e);
      }
      TailSound(level, r.e, ts, |ts| - |r.rest|);
    }
  }

  lemma {:induction false} UnarySound(ts: seq<Token>)
    requires ParseUnary(ts).Parsed?
    ensures Reads(4, ts, ParseUnary(ts).e, ParseUnary(ts).rest)
    decreases |ts|, 1, 0
  {
    var r := ParseUnary(ts);
    if ts != [] && UnOpOf(ts[0]).Some? {
      PrefixesAgree(ts[0]);
      UnarySound(ts[1..]);
      assert Taken(ts, r.rest)[1..] == Taken(ts[1..], r.rest);
    } else {
      BracketSound(ts);
    }
  }

  lemma {:induction false} BracketSound(ts: seq<Token>)
    requires ParseBracket(ts).Parsed?
    ensures Reads(5, ts, ParseBracket(ts).e, ParseBracket(ts).rest)
    decreases |ts|, 0, 0
  {
    var r := ParseBracket(ts);
    if ts != [] && ts[0] == Symbol("(") {
      Sound(0, ts[1..]);
      var inner := ParseAt(0, ts[1..]);
      var taken := Taken(ts, r.rest);
      assert taken[|taken| - 1] == inner.rest[0];
      assert taken[1..|taken| - 1] == Taken(ts[1..], inner.rest);
    } else {
      AtomSound(ts, r.e, r.rest);
    }
  }

  /** What has been read up to place `m` is the left operand. */
  lemma {:induction false} TailSound(level: nat, left: Expr, ts: seq<Token>, m: nat)
    requires level <= 3 && 0 < m <= |ts| && Derives(if level == 1 then 2 else level, ts[..m], left)
    requires Tail(level, left, ts[m..]).Parsed?
    ensures Reads(level, ts, Tail(level, left, ts[m..]).e, Tail(level, left, ts[m..]).rest)
    decreases |ts| - m, 5 - level, 0
  {
    if m == |ts| || !IsOpAt(level, ts[m]) {
      assert Taken(ts, ts[m..]) == ts[..m];
    } else {
      OperatorsAgree(ts[m], level);
      assert ts[m..][1..] == ts[m + 1..];
      Sound(level + 1, ts[m + 1..]);
      var r := ParseAt(level + 1, ts[m + 1..]);
      var e := Bin(BinOpOf(ts[m]).value, left, r.e);
      var n := |ts| - |r.rest|;
      assert Taken(ts[m + 1..], r.rest) == ts[m + 1..n];
      SplitHolds(level, ts, m, n, left, r.e, e);
      assert r.rest == ts[n..];
      if level == 1 {
        assert Taken(ts, r.rest) == ts[..n];
      } else {
        TailSound(level, e, ts, n);
      }
    }
  }

  lemma SplitHolds(level: nat, ts: seq<Token>, m: nat, n: nat, left: Expr, right: Expr, e: Expr)
    requires level <= 3 && 0 < m < n <= |ts| && ts[m] in OperatorsOf(level)
    requires e == Bin(OperatorsOf(level)[ts[m]], left, right)
    requires Derives(if level == 1 then 2 else level, ts[..m], left) && Derives(level + 1, ts[m + 1..n], right)
    ensures Derives(level, ts[..n], e)
  {
    assert ts[..n][..m] == ts[..m] && ts[..n][m + 1..] == ts[m + 1..n] && ts[..n][m] == ts[m];
    assert Splits(level, ts[..n], e, m);
  }

  // ---- the parser and the grammar ----

  /** The parser accepts exactly the grammar, and yields the tree of the grammar. */
  lemma ParserIsGrammar(ts: seq<Token>, e: Expr)
    ensures ParseAt(0, ts) == Parsed(e, []) <==> Derives(0, ts, e)
  {
    if ParseAt(0, ts) == Parsed(e, []) {
      Sound(0, ts);
      assert Taken(ts, []) == ts;
    }
    if Derives(0, ts, e) {
      Complete(0, ts, e, []);
      assert ts + [] == ts;
    }
  }

  /** In front of other tokens, the parser stops where no expression can go on. */
  lemma ParserStops(ts: seq<Token>, e: Expr, rest: seq<Token>)
    requires Derives(0, ts, e) && Closes(0, rest) && (rest != [] ==> rest[0] !in OperatorsOf(0))
    ensures ParseAt(0, ts + rest) == Parsed(e, rest)
  {
    Complete(0, ts, e, rest);
    if rest != [] {
      OperatorsAgree(rest[0], 0);
    }
  }

  /** The grammar is not ambiguous. */
  lemma GrammarIsUnambiguous(ts: seq<Token>, e: Expr, e': Expr)
    requires Derives(0, ts, e) && Derives(0, ts, e')
    ensures e == e'
  {
    ParserIsGrammar(ts, e);
    ParserIsGrammar(ts, e');
  }
}
