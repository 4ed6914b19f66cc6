/** Brackets are printed where they are needed, and nowhere else (pkg/parser/printer.go, pkg/parser/parser.go). */
module Brackets {
  import opened Ast
  import opened Lexing
  import opened Printing
  import opened RoundTrip
  import opened Grammar

  function Var(x: string): Expr {
    Deref(x, Plain)
  }

  lemma {:induction false} Lifted(from: nat, level: nat, ts: seq<Token>, e: Expr)
    requires level <= from <= 5 && Derives(from, ts, e)
    ensures Derives(level, ts, e)
    decreases from - level
  {
    if level < from {
      Lifted(from, level + 1, ts, e);
    }
  }

  lemma VarDerives(level: nat, x: string)
    requires level <= 5
    ensures Derives(level, [Id(x)], Var(x))
  {
    assert IsAtom([Id(x)], Var(x));
    Lifted(5, level, [Id(x)], Var(x));
  }

  lemma OperatorListed(op: BinOp)
    ensures OpToken(op) in OperatorsOf(Priority(op)) && OperatorsOf(Priority(op))[OpToken(op)] == op
  {
  }

  lemma OperationDerives(op: BinOp, l: Expr, r: Expr, tl: seq<Token>, tr: seq<Token>)
    requires tl != [] && Derives(if Priority(op) == 1 then 2 else Priority(op), tl, l) &&
             Derives(Priority(op) + 1, tr, r)
    ensures Derives(Priority(op), tl + [OpToken(op)] + tr, Bin(op, l, r))
  {
    var ts := tl + [OpToken(op)] + tr;
    OperatorListed(op);
    assert ts[..|tl|] == tl && ts[|tl| + 1..] == tr;
    assert Splits(Priority(op), ts, Bin(op, l, r), |tl|);
  }

  lemma PairDerives(x: string, op: BinOp, y: string)
    ensures Derives(Priority(op), [Id(x), OpToken(op), Id(y)], Bin(op, Var(x), Var(y)))
  {
    VarDerives(if Priority(op) == 1 then 2 else Priority(op), x);
    VarDerives(Priority(op) + 1, y);
    OperationDerives(op, Var(x), Var(y), [Id(x)], [Id(y)]);
    assert [Id(x)] + [OpToken(op)] + [Id(y)] == [Id(x), OpToken(op), Id(y)];
  }

  /** Two operations in a row, without brackets. */
  function Row(x: string, p: BinOp, y: string, q: BinOp, z: string): seq<Token> {
    [Id(x), OpToken(p), Id(y), OpToken(q), Id(z)]
  }

  /** If the first operator binds at least as tightly, it is the left operand of the second one. */
  lemma RowToTheLeft(x: string, p: BinOp, y: string, q: BinOp, z: string)
    requires Priority(p) >= Priority(q) && !(IsComparison(p) && IsComparison(q))
    ensures Derives(0, Row(x, p, y, q, z), Bin(q, Bin(p, Var(x), Var(y)), Var(z)))
  {
    var left := [Id(x), OpToken(p), Id(y)];
    PairDerives(x, p, y);
    Lifted(Priority(p), if Priority(q) == 1 then 2 else Priority(q), left, Bin(p, Var(x), Var(y)));
    VarDerives(Priority(q) + 1, z);
    OperationDerives(q, Bin(p, Var(x), Var(y)), Var(z), left, [Id(z)]);
    assert left + [OpToken(q)] + [Id(z)] == Row(x, p, y, q, z);
    Lifted(Priority(q), 0, Row(x, p, y, q, z), Bin(q, Bin(p, Var(x), Var(y)), Var(z)));
  }

  lemma RowToTheRight(x: string, p: BinOp, y: string, q: BinOp, z: string)
    requires Priority(p) < Priority(q)
    ensures Derives(0, Row(x, p, y, q, z), Bin(p, Var(x), Bin(q, Var(y), Var(z))))
  {
    var right := [Id(y), OpToken(q), Id(z)];
    PairDerives(y, q, z);
    Lifted(Priority(q), Priority(p) + 1, right, Bin(q, Var(y), Var(z)));
    VarDerives(if Priority(p) == 1 then 2 else Priority(p), x);
    OperationDerives(p, Var(x), Bin(q, Var(y), Var(z)), [Id(x)], right);
    assert [Id(x)] + [OpToken(p)] + right == Row(x, p, y, q, z);
    Lifted(Priority(p), 0, Row(x, p, y, q, z), Bin(p, Var(x), Bin(q, Var(y), Var(z))));
  }

  /** Without brackets, two operations in a row are grouped one way or the other. */
  lemma RowGroups(x: string, p: BinOp, y: string, q: BinOp, z: string)
    requires !(IsComparison(p) && IsComparison(q))
    ensures Derives(0, Row(x, p, y, q, z), Bin(q, Bin(p, Var(x), Var(y)), Var(z))) <==> Priority(p) >= Priority(q)
    ensures Derives(0, Row(x, p, y, q, z), Bin(p, Var(x), Bin(q, Var(y), Var(z)))) <==> Priority(p) < Priority(q)
  {
    var l, r := Bin(q, Bin(p, Var(x), Var(y)), Var(z)), Bin(p, Var(x), Bin(q, Var(y), Var(z)));
    if Priority(p) >= Priority(q) {
      RowToTheLeft(x, p, y, q, z);
    } else {
      RowToTheRight(x, p, y, q, z);
    }
    if Derives(0, Row(x, p, y, q, z), l) && Derives(0, Row(x, p, y, q, z), r) {
      GrammarIsUnambiguous(Row(x, p, y, q, z), l, r);
    }
  }

  lemma PairTokens(x: string, op: BinOp, y: string)
    ensures Tokens(Bin(op, Var(x), Var(y))) == [Id(x)] + ([OpToken(op)] + [Id(y)])
  {
    assert Tokens(Var(x)) == [Id(x)] && Tokens(Var(y)) == [Id(y)];
    assert !LeftBrackets(op, Var(x)) && !RightBrackets(op, Var(y));
  }

  /** The left operand of an operation on variables is printed without brackets if and only if it is read back without
      them. */
  lemma LeftBracketsNeeded(x: string, p: BinOp, y: string, q: BinOp, z: string)
    requires !(IsComparison(p) && IsComparison(q))
    ensures var e := Bin(q, Bin(p, Var(x), Var(y)), Var(z));
            Tokens(e) == Row(x, p, y, q, z) <==> Derives(0, Row(x, p, y, q, z), e)
  {
    RowGroups(x, p, y, q, z);
    var inner := Tokens(Bin(p, Var(x), Var(y)));
    PairTokens(x, p, y);
    assert Tokens(Var(z)) == [Id(z)];
    if Priority(p) >= Priority(q) {
      assert inner + ([OpToken(q)] + [Id(z)]) == Row(x, p, y, q, z);
    } else {
      assert Tokens(Bin(q, Bin(p, Var(x), Var(y)), Var(z)))[0] == Symbol("(");
    }
  }

  /** The same for the right operand. */
  lemma RightBracketsNeeded(x: string, p: BinOp, y: string, q: BinOp, z: string)
    requires !(IsComparison(p) && IsComparison(q))
    ensures var e := Bin(p, Var(x), Bin(q, Var(y), Var(z)));
            Tokens(e) == Row(x, p, y, q, z) <==> Derives(0, Row(x, p, y, q, z), e)
  {
    RowGroups(x, p, y, q, z);
    var inner := Tokens(Bin(q, Var(y), Var(z)));
    PairTokens(y, q, z);
    assert Tokens(Var(x)) == [Id(x)];
    if Priority(p) < Priority(q) {
      assert [Id(x)] + ([OpToken(p)] + inner) == Row(x, p, y, q, z);
    } else {
      assert Tokens(Bin(p, Var(x), Bin(q, Var(y), Var(z))))[2] == Symbol("(");
    }
  }

  /** The operand of a sign, of `not` and of a function is put in brackets exactly if it is an operation on two
      operands; constants and variables never are. */
  lemma PrefixBrackets(op: UnOp, e: Expr)
    ensures !e.Bin? ==> Tokens(Un(op, e)) == [UnToken(op)] + Tokens(e)
    ensures e.Bin? ==> Tokens(Un(op, e)) == [UnToken(op), Symbol("(")] + Tokens(e) + [Symbol(")")]
  {
  }
}
