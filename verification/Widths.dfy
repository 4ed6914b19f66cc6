/** How long printed lines are (getLengthOfLine and maxLineLength in pkg/nolol/converter.go, Print in
    pkg/parser/printer.go). */
module Widths {
  import opened Ast
  import opened Operations
  import opened Lexing
  import opened Printing
  import opened Merging
  import opened Gotos
  import opened Numbering
  import opened Packing

  function LineText(ss: seq<Stmt>): string {
    Render(ListPieces(ss), false)
  }

  /** The length of a printed line with its newline. */
  function PrintedLen(ss: seq<Stmt>): nat {
    |LineText(ss)| + 1
  }

  /** Prints the line, and measures the text. */
  method GetLengthOfLine(ss: seq<Stmt>) returns (n: nat)
    ensures n == PrintedLen(ss)
  {
    var printer := new Printer(Compact);
    printer.PrintStatements(ss);
    assert printer.pieces == ListPieces(ss);
    printer.Newline();
    n := |printer.text|;
  }

  // ---- lengths of rendered pieces ----

  function Len(ps: seq<Piece>, last: bool): nat {
    |Render(ps, last)|
  }

  /** The length with a space behind it. */
  function Len1(ps: seq<Piece>, last: bool): nat {
    Len(ps, last) + if LastSpace(ps, last) then 0 else 1
  }

  lemma LenAppend(a: seq<Piece>, b: seq<Piece>, last: bool)
    ensures Len(a + b, last) == Len(a, last) + Len(b, LastSpace(a, last))
    ensures LastSpace(a + b, last) == LastSpace(b, LastSpace(a, last))
  {
    RenderAppend(a, b, last);
  }

  lemma LenSpaced(a: seq<Piece>, b: seq<Piece>, last: bool)
    ensures Len(a + ([Space] + b), last) == Len1(a, last) + Len(b, true)
    ensures LastSpace(a + ([Space] + b), last) == LastSpace(b, true)
  {
    LenAppend(a, [Space] + b, last);
    var l := LastSpace(a, last);
    assert ([Space] + b)[1..] == b;
    assert Render([Space] + b, l) == (if l then "" else " ") + Render(b, true);
  }

  /** One space at the start is all that can be saved behind another space. */
  lemma LenLast(ps: seq<Piece>)
    ensures Len(ps, true) <= Len(ps, false) <= Len(ps, true) + 1
    ensures ps != [] ==> LastSpace(ps, true) == LastSpace(ps, false)
    ensures LastSpace(ps, false) ==> Len(ps, false) >= 1
    decreases |ps|
  {
    if ps != [] {
      LenLast(ps[1..]);
    }
  }

  // ---- the length is sensible ----

  lemma {:induction false} ListPiecesAppend(a: seq<Stmt>, b: seq<Stmt>)
    requires a != [] && b != []
    ensures ListPieces(a + b) == ListPieces(a) + ([Space] + ListPieces(b))
    decreases |a|
  {
    assert (a + b)[0] == a[0] && (a + b)[1..] == a[1..] + b;
    if |a| == 1 {
      assert a[1..] + b == b;
    } else {
      ListPiecesAppend(a[1..], b);
      Regroup(StmtPieces(a[0]), [Space], ListPieces(a[1..]), [Space] + ListPieces(b));
    }
  }

  lemma Regroup(a: seq<Piece>, b: seq<Piece>, c: seq<Piece>, d: seq<Piece>)
    ensures a + (b + (c + d)) == (a + (b + c)) + d
  {
  }

  /** Joining two lines saves at least one character, and leaving out the first statements saves something. */
  lemma PrintedLenAppend(a: seq<Stmt>, b: seq<Stmt>)
    ensures PrintedLen(b) <= PrintedLen(a + b) <= PrintedLen(a) + PrintedLen(b)
  {
    if a == [] {
      assert a + b == b;
    } else if b == [] {
      assert a + b == a;
    } else {
      ListPiecesAppend(a, b);
      LenSpaced(ListPieces(a), ListPieces(b), false);
      LenLast(ListPieces(a));
      LenLast(ListPieces(b));
    }
  }

  /** The converter's way to measure lines: with the line counter, four characters less may be used. */
  function StandardLayout(tracksTime: bool): Layout {
    Layout(ss => PrintedLen(ss), if tracksTime then 70 - 4 else 70)
  }

  lemma StandardIsSensible(tracksTime: bool)
    ensures Sensible(StandardLayout(tracksTime))
  {
    forall a, b {:trigger PrintedLen(a + b)}
      ensures PrintedLen(b) <= PrintedLen(a + b) <= PrintedLen(a) + PrintedLen(b)
    {
      PrintedLenAppend(a, b);
    }
  }

  // ---- what the later passes do to the length ----

  /** `p` is at most as long as `q`, alone and with a space behind it. */
  ghost predicate Within(p: seq<Piece>, q: seq<Piece>) {
    forall last {:trigger Len(p, last)} {:trigger Len(q, last)} ::
      Len(p, last) <= Len(q, last) && Len1(p, last) <= Len1(q, last)
  }

  lemma WithinAfter(x: seq<Piece>, p: seq<Piece>, q: seq<Piece>)
    requires Within(p, q)
    ensures Within(x + p, x + q)
  {
    forall last ensures Len(x + p, last) <= Len(x + q, last) && Len1(x + p, last) <= Len1(x + q, last) {
      LenAppend(x, p, last);
      LenAppend(x, q, last);
      assert Len(p, LastSpace(x, last)) <= Len(q, LastSpace(x, last));
    }
  }

  lemma WithinBefore(p: seq<Piece>, q: seq<Piece>, x: seq<Piece>)
    requires Within(p, q)
    ensures Within(p + ([Space] + x), q + ([Space] + x))
  {
    forall last ensures Len(p + ([Space] + x), last) <= Len(q + ([Space] + x), last) &&
                        Len1(p + ([Space] + x), last) <= Len1(q + ([Space] + x), last) {
      LenSpaced(p, x, last);
      LenSpaced(q, x, last);
      assert Len(p, last) <= Len(q, last);
    }
  }

  lemma WithinTransitive(p: seq<Piece>, q: seq<Piece>, r: seq<Piece>)
    requires Within(p, q) && Within(q, r)
    ensures Within(p, r)
  {
    forall last ensures Len(p, last) <= Len(r, last) && Len1(p, last) <= Len1(r, last) {
      assert Len(p, last) <= Len(q, last);
      assert Len(q, last) <= Len(r, last);
    }
  }

  lemma WithinSpaced(a: seq<Piece>, a': seq<Piece>, b: seq<Piece>, b': seq<Piece>)
    requires Within(a, a') && Within(b, b')
    ensures Within(a + ([Space] + b), a' + ([Space] + b'))
  {
    WithinBefore(a, a', b);
    WithinAfter([Space], b, b');
    WithinAfter(a', [Space] + b, [Space] + b');
    WithinTransitive(a + ([Space] + b), a' + ([Space] + b), a' + ([Space] + b'));
  }

  /** Nothing is shorter than something. */
  lemma WithinCut(a: seq<Piece>, b: seq<Piece>, c: seq<Piece>)
    requires Within(a, b)
    ensures Within(a, b + ([Space] + c))
  {
    forall last ensures Len(a, last) <= Len(b + ([Space] + c), last) && Len1(a, last) <= Len1(b + ([Space] + c), last) {
      LenSpaced(b, c, last);
      assert Len(a, last) <= Len(b, last);
    }
  }

  lemma WithinIf(c: Expr, t: seq<Stmt>, t': seq<Stmt>, e: seq<Stmt>, e': seq<Stmt>)
    requires Within(ListPieces(t'), ListPieces(t)) && Within(ListPieces(e'), ListPieces(e)) && (e == [] ==> e' == [])
    ensures Within(StmtPieces(If(c, t', e')), StmtPieces(If(c, t, e)))
  {
    var head := [T(Keyword("if")), Space] + Pieces(Compact, c) + [Space, T(Keyword("then")), Space];
    var x, last := [T(Keyword("else")), Space], [T(Keyword("end"))];
    var p, p' := ListPieces(t), ListPieces(t');
    var q, q' := ElseTail(e), ElseTail(e');
    WithinElse(e, e');
    WithinSpaced(p', p, q'[1..], q[1..]);
    assert q == [Space] + q[1..] && q' == [Space] + q'[1..];
    WithinAfter(head, p' + q', p + q);
  }

  /** The rest of an if behind its first block. */
  function ElseTail(e: seq<Stmt>): (r: seq<Piece>)
    ensures r != [] && r[0] == Space
  {
    (if e == [] then [] else [Space, T(Keyword("else")), Space] + ListPieces(e)) + [Space, T(Keyword("end"))]
  }

  lemma WithinElse(e: seq<Stmt>, e': seq<Stmt>)
    requires Within(ListPieces(e'), ListPieces(e)) && (e == [] ==> e' == [])
    ensures Within(ElseTail(e')[1..], ElseTail(e)[1..])
  {
    var x, end := [T(Keyword("else")), Space], [T(Keyword("end"))];
    var q, q' := x + ListPieces(e), x + ListPieces(e');
    WithinAfter(x, ListPieces(e'), ListPieces(e));
    WithinBefore(q', q, end);
    if e != [] {
      assert ElseTail(e)[1..] == q + ([Space] + end);
      if e' != [] {
        assert ElseTail(e')[1..] == q' + ([Space] + end);
      } else {
        assert ElseTail(e')[1..] == end;
        WithinEnd(q, end);
      }
    }
  }

  lemma WithinEnd(q: seq<Piece>, end: seq<Piece>)
    requires end != [] && end[0].T?
    ensures Within(end, q + ([Space] + end))
  {
    forall last ensures
      Len(end, last) <= Len(q + ([Space] + end), last) && Len1(end, last) <= Len1(q + ([Space] + end), last) {
      LenSpaced(q, end, last);
    }
  }

  // ---- deleting gotos ----

  lemma {:induction false} DedupStmtWithin(s: Stmt)
    ensures Within(StmtPieces(DedupStmt(s)), StmtPieces(s))
    decreases s, 1
  {
    if s.If? {
      DedupWithin(s.thn, false);
      DedupWithin(s.els, false);
      WithinIf(s.cond, s.thn, DedupStmts(s.thn, false).stmts, s.els, DedupStmts(s.els, false).stmts);
    }
  }

  lemma {:induction false} DedupWithin(ss: seq<Stmt>, last: bool)
    ensures Within(ListPieces(DedupStmts(ss, last).stmts), ListPieces(ss))
    decreases ss, 0
  {
    if ss != [] {
      var r := DedupStmts(ss[1..], ss[0].GotoLabel?).stmts;
      DedupWithin(ss[1..], ss[0].GotoLabel?);
      if ss[0].GotoLabel? && last {
        GotoCut(ss, r);
      } else {
        DedupStmtWithin(ss[0]);
        ConsWithin(DedupStmt(ss[0]), r, ss);
      }
    }
  }

  lemma ConsWithin(s: Stmt, r: seq<Stmt>, ss: seq<Stmt>)
    requires ss != [] && Within(StmtPieces(s), StmtPieces(ss[0])) && Within(ListPieces(r), ListPieces(ss[1..]))
    requires |ss| == 1 ==> r == []
    ensures Within(ListPieces([s] + r), ListPieces(ss))
  {
    assert ([s] + r)[1..] == r;
    if r == [] {
      if |ss| > 1 {
        WithinCut(StmtPieces(s), StmtPieces(ss[0]), ListPieces(ss[1..]));
      }
    } else {
      WithinSpaced(StmtPieces(s), StmtPieces(ss[0]), ListPieces(r), ListPieces(ss[1..]));
    }
  }

  lemma GotoCut(ss: seq<Stmt>, r: seq<Stmt>)
    requires ss != [] && ss[0].GotoLabel? && Within(ListPieces(r), ListPieces(ss[1..])) && (|ss| == 1 ==> r == [])
    ensures Within(ListPieces(r), ListPieces(ss))
  {
    var g, q, p := StmtPieces(ss[0]), ListPieces(ss[1..]), ListPieces(r);
    GotoLen(ss[0]);
    forall last ensures Len(p, last) <= Len(ListPieces(ss), last) && Len1(p, last) <= Len1(ListPieces(ss), last) {
      assert Len(p, last) <= Len(q, last);
      LenLast(q);
      if |ss| > 1 {
        LenSpaced(g, q, last);
      }
    }
  }

  lemma GotoLen(s: Stmt)
    requires s.GotoLabel?
    ensures forall last :: Len(StmtPieces(s), last) == 7 && !LastSpace(StmtPieces(s), last)
  {
    forall last ensures Len(StmtPieces(s), last) == 7 && !LastSpace(StmtPieces(s), last) {
      assert StmtPieces(s)[1..] == [];
      assert Render(StmtPieces(s), last) == "goto XX" + "";
    }
  }

  // ---- line numbers ----

  lemma TwoDigits(n: nat)
    requires n <= 99
    ensures 1 <= |Itoa(n)| <= 2
  {
  }

  ghost predicate Numbers99(m: JumpLabels) {
    forall l :: l in m ==> m[l] <= 99
  }

  lemma NumberedGoto(m: JumpLabels, s: Stmt)
    requires s.GotoLabel? && UsedInStmt(s) <= m.Keys && Numbers99(m)
    ensures Within(StmtPieces(NumberStmt(m, s)), StmtPieces(s))
  {
    GotoLen(s);
    var d := Itoa(m[s.target]);
    TwoDigits(m[s.target]);
    ItoaNotNegative(m[s.target]);
    var ps := StmtPieces(NumberStmt(m, s));
    assert ps == [T(Keyword("goto")), Space, T(Number(d))];
    forall last ensures Len(ps, last) == 5 + |d| && !LastSpace(ps, last) {
      assert ps[1..] == [Space, T(Number(d))] && ps[1..][1..] == [T(Number(d))] && ps[1..][1..][1..] == [];
      assert !LastSpace(ps[1..][1..], true) && LastSpace(ps[1..], false) == LastSpace(ps[1..][1..], true);
      assert Render(ps[1..][1..], true) == d + "";
      assert Render(ps[1..], false) == " " + Render(ps[1..][1..], true);
      assert Render(ps, last) == "goto" + Render(ps[1..], false);
    }
  }

  lemma {:induction false} ItoaNotNegative(n: nat)
    ensures Itoa(n) != "" && !Negative(Itoa(n))
  {
    if n >= 10 {
      ItoaNotNegative(n / 10);
    }
  }

  lemma WithinRefl(p: seq<Piece>)
    ensures Within(p, p)
  {
  }

  lemma {:induction false} NumberStmtWithin(m: JumpLabels, s: Stmt)
    requires UsedInStmt(s) <= m.Keys && Numbers99(m)
    ensures Within(StmtPieces(NumberStmt(m, s)), StmtPieces(s))
    decreases s, 1
  {
    match s
    case GotoLabel(_) => NumberedGoto(m, s);
    case If(c, t, e) =>
      NumberWithin(m, t);
      NumberWithin(m, e);
      WithinIf(c, t, NumberStmts(m, t), e, NumberStmts(m, e));
    case _ => WithinRefl(StmtPieces(s));
  }

  lemma {:induction false} NumberWithin(m: JumpLabels, ss: seq<Stmt>)
    requires UsedIn(ss) <= m.Keys && Numbers99(m)
    ensures Within(ListPieces(NumberStmts(m, ss)), ListPieces(ss))
    decreases ss, 0
  {
    if ss != [] {
      NumberStmtWithin(m, ss[0]);
      NumberWithin(m, ss[1..]);
      ConsWithin(NumberStmt(m, ss[0]), NumberStmts(m, ss[1..]), ss);
    }
  }

  // ---- the final line ----

  /** The statement that counts lines; its variable was given the first short name. */
  const COUNT_LINE := Touch("a", PostInc)

  lemma CounterText()
    ensures var g := StmtPieces(COUNT_LINE); Render(g, false) == "a++ " && LastSpace(g, false)
  {
    var g := StmtPieces(COUNT_LINE);
    assert g == [T(Id("a")), T(Symbol("++")), Space];
    assert g[1..] == [T(Symbol("++")), Space] && g[1..][1..] == [Space] && g[1..][1..][1..] == [];
    assert Render(g[1..][1..], false) == " " + "";
    assert Render(g[1..], false) == "++" + Render(g[1..][1..], false);
    assert Render(g, false) == "a" + Render(g[1..], false);
    assert LastSpace(g, false);
  }

  lemma CounterLen(ss: seq<Stmt>)
    ensures |LineText([COUNT_LINE] + ss)| <= |LineText(ss)| + 4
  {
    CounterText();
    if ss != [] {
      CounterAdds(ss);
      LenLast(ListPieces(ss));
    }
  }

  /** Behind the counter, only the space in front of the first statement can be saved. */
  lemma CounterAdds(ss: seq<Stmt>)
    requires ss != []
    ensures |LineText([COUNT_LINE] + ss)| == 4 + |Render(ListPieces(ss), true)|
    ensures |LineText([COUNT_LINE] + ss)| >= 3 + |LineText(ss)|
  {
    CounterText();
    assert ([COUNT_LINE] + ss)[1..] == ss;
    LenSpaced(StmtPieces(COUNT_LINE), ListPieces(ss), false);
    LenLast(ListPieces(ss));
  }

  function WithCounter(tracksTime: bool, ss: seq<Stmt>): seq<Stmt> {
    if tracksTime then [COUNT_LINE] + ss else ss
  }

  /** If the length of a group is looked at, then its line has fewer than 70 characters in the final program, if that
      has at most 99 lines: neither the deletion of gotos, nor the line numbers, nor the line counter makes it too
      long. */
  lemma AssembledLineFits(tracksTime: bool, lines: seq<Line>, i: nat, last: bool, m: JumpLabels)
    requires i < |lines| && GroupLast(StandardLayout(tracksTime), lines, i).Some?
    requires Checked(StandardLayout(tracksTime), lines, i)
    requires Numbers99(m)
    requires var g := GroupLast(StandardLayout(tracksTime), lines, i).value + 1;
             UsedIn(DedupStmts(Joined(lines[i..g]).stmts, last).stmts) <= m.Keys
    ensures var g := GroupLast(StandardLayout(tracksTime), lines, i).value + 1;
            var final := NumberStmts(m, DedupStmts(Joined(lines[i..g]).stmts, last).stmts);
            |LineText(WithCounter(tracksTime, final))| < 70
  {
    var lay := StandardLayout(tracksTime);
    var ss := Joined(lines[i..GroupLast(lay, lines, i).value + 1]).stmts;
    StandardIsSensible(tracksTime);
    CheckedFits(lay, lines, i);
    FinalLineFits(tracksTime, ss, last, m);
  }

  /** What fits when it is packed fits in the final program. */
  lemma FinalLineFits(tracksTime: bool, ss: seq<Stmt>, last: bool, m: JumpLabels)
    requires PrintedLen(ss) <= StandardLayout(tracksTime).max && Numbers99(m)
    requires UsedIn(DedupStmts(ss, last).stmts) <= m.Keys
    ensures |LineText(WithCounter(tracksTime, NumberStmts(m, DedupStmts(ss, last).stmts)))| < 70
  {
    var deduped := DedupStmts(ss, last).stmts;
    var final := NumberStmts(m, deduped);
    DedupWithin(ss, last);
    NumberWithin(m, deduped);
    assert Len(ListPieces(final), false) <= Len(ListPieces(deduped), false) <= Len(ListPieces(ss), false);
    CounterLen(final);
  }
}
