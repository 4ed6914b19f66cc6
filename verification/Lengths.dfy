/** The lines of the finished program are short enough (getLengthOfLine and maxLineLength in pkg/nolol/converter.go). */
module Lengths {
  import opened Ast
  import opened Semantics
  import opened Machine
  import opened Nolol
  import opened Naming
  import opened Renaming
  import opened NamesInBlocks
  import opened Merging
  import opened Packing
  import opened Grouping
  import opened Gotos
  import opened Numbering
  import opened Printing
  import opened Widths
  import opened Lowering
  import opened LineCounter
  import opened Compiler
  import opened Outcomes
  import opened Conversion
  import opened Limits

  /** Line `k` is too long on its own, and nobody looks: it is the last one, or it may not be extended. */
  ghost predicate TooLongUnseen(lay: Layout, lines: seq<Line>, k: nat) {
    k < |lines| && lay.len(lines[k].stmts) > lay.max && (lines[k].eol || k + 1 == |lines|)
  }

  /** Line `j` of the code, with the line counter if there is one, has 70 characters or more. */
  predicate LongLine(tracksTime: bool, code: Code, j: nat) {
    j < |code| && |LineText(WithCounter(tracksTime, code[j]))| >= 70
  }

  /** The labelled lines before they are merged. */
  function Cleared(cfg: Config, prog: seq<Element>): seq<Line> {
    ClearUnused(ResolveChains(LowerProgram(cfg, prog)))
  }

  /** Line `k` is one of those that nobody looks at, and it has 70 characters or more with its final line numbers and
      with the counter. */
  predicate LongUnseen(tracksTime: bool, lines: seq<Line>, m: JumpLabels, k: nat) {
    && k < |lines| && (lines[k].eol || k + 1 == |lines|)
    && var ss := Dedup(lines)[k].stmts;
       UsedIn(ss) <= m.Keys && |LineText(WithCounter(tracksTime, NumberStmts(m, ss)))| >= 70
  }

  lemma {:induction false} NamedInLine(p: seq<Line>, j: nat)
    requires j < |p|
    ensures UsedIn(p[j].stmts) <= Used(p)
  {
    if j > 0 {
      NamedInLine(p[1..], j - 1);
    }
  }

  /** The statements of line `j` of the code come from group `s`. */
  ghost predicate ComesFrom(cfg: Config, prog: seq<Element>, m: JumpLabels, j: nat, i: nat, s: nat)
    requires Compile(cfg, prog).Compiled?
  {
    var merged := Packed(cfg, prog).value;
    && j < |Compile(cfg, prog).code| && i < |merged| && StartsGroup(cfg.lay, Cleared(cfg, prog), merged, s, i)
    && var ss := DedupStmts(merged[i].stmts, GotoBefore(merged, i)).stmts;
       UsedIn(ss) <= m.Keys && Compile(cfg, prog).code[j] == NumberStmts(m, ss)
  }

  function LabelsOf(cfg: Config, prog: seq<Element>): JumpLabels
    requires Compile(cfg, prog).Compiled?
  {
    FindLabels(Dedup(Packed(cfg, prog).value)).value.labels
  }

  lemma LabelNumbers(cfg: Config, prog: seq<Element>)
    requires Compile(cfg, prog).Compiled?
    ensures Numbers99(LabelsOf(cfg, prog))
  {
    var lines := Dedup(Packed(cfg, prog).value);
    forall l | l in LabelsOf(cfg, prog) ensures LabelsOf(cfg, prog)[l] <= 99 {
      NumbersBounded(lines, l);
    }
  }

  /** Where a line of the code comes from. */
  lemma CodeComesFrom(cfg: Config, prog: seq<Element>, j: nat) returns (i: nat, s: nat)
    requires Compile(cfg, prog).Compiled? && j < |Compile(cfg, prog).code|
    ensures ComesFrom(cfg, prog, LabelsOf(cfg, prog), j, i, s)
  {
    var merged := Packed(cfg, prog).value;
    var lines := Dedup(merged);
    var q := FindLabels(lines).value;
    FindLabelsTable(lines);
    i := SurvivorAt(lines, |lines|, j);
    assert KeptAt(lines, i, q.lines);
    NamedInLine(q.lines, j);
    s := GroupOfLine(cfg.lay, Cleared(cfg, prog), 0, [], merged, i);
  }

  /** Where line `k` gets to, if something is left of its group. */
  lemma LineComesTo(cfg: Config, prog: seq<Element>, k: nat) returns (j: nat, i: nat, s: nat)
    requires Compile(cfg, prog).Compiled? && k < |Cleared(cfg, prog)|
    ensures i < |Packed(cfg, prog).value|
    ensures StartsGroup(cfg.lay, Cleared(cfg, prog), Packed(cfg, prog).value, s, i)
    ensures s <= k <= GroupLast(cfg.lay, Cleared(cfg, prog), s).value
    ensures Dedup(Packed(cfg, prog).value)[i].stmts != [] ==>
              ComesFrom(cfg, prog, LabelsOf(cfg, prog), j, i, s)
  {
    var merged := Packed(cfg, prog).value;
    var lines := Dedup(merged);
    var q := FindLabels(lines).value;
    s, i := GroupWithLine(cfg.lay, Cleared(cfg, prog), 0, [], merged, k);
    FindLabelsTable(lines);
    assert KeptAt(lines, i, q.lines);
    j := Surviving(lines, i);
    if lines[i].stmts != [] {
      NamedInLine(q.lines, j);
    }
  }

  lemma DedupAt(p: seq<Line>, i: nat)
    requires i < |p|
    ensures Dedup(p)[i].stmts == DedupStmts(p[i].stmts, GotoBefore(p, i)).stmts
  {
  }

  /** A group of one line. */
  lemma SingleLine(cfg: Config, prog: seq<Element>, i: nat, s: nat)
    requires Compile(cfg, prog).Compiled? && i < |Packed(cfg, prog).value|
    requires StartsGroup(cfg.lay, Cleared(cfg, prog), Packed(cfg, prog).value, s, i)
    requires GroupLast(cfg.lay, Cleared(cfg, prog), s) == Some(s)
    ensures Dedup(Packed(cfg, prog).value)[i].stmts == Dedup(Cleared(cfg, prog))[s].stmts
  {
    var lines := Cleared(cfg, prog);
    assert lines[s..s + 1] == [lines[s]];
    ConcatOne(lines[s]);
  }

  lemma GroupFits(tracksTime: bool, lines: seq<Line>, merged: seq<Line>, s: nat, i: nat, m: JumpLabels)
    requires StartsGroup(StandardLayout(tracksTime), lines, merged, s, i) && Numbers99(m)
    requires Checked(StandardLayout(tracksTime), lines, s)
    requires UsedIn(DedupStmts(merged[i].stmts, GotoBefore(merged, i)).stmts) <= m.Keys
    ensures var ss := DedupStmts(merged[i].stmts, GotoBefore(merged, i)).stmts;
            |LineText(WithCounter(tracksTime, NumberStmts(m, ss)))| < 70
  {
    AssembledLineFits(tracksTime, lines, s, GotoBefore(merged, i), m);
  }

  /** A line of the code that is too long comes from a line that nobody looks at. */
  lemma LongComesFrom(cfg: Config, tracksTime: bool, prog: seq<Element>, j: nat) returns (k: nat)
    requires cfg.lay == StandardLayout(tracksTime) && Compile(cfg, prog).Compiled?
    requires LongLine(tracksTime, Compile(cfg, prog).code, j)
    ensures LongUnseen(tracksTime, Cleared(cfg, prog), LabelsOf(cfg, prog), k)
  {
    var m := LabelsOf(cfg, prog);
    var i;
    i, k := CodeComesFrom(cfg, prog, j);
    LabelNumbers(cfg, prog);
    if Checked(cfg.lay, Cleared(cfg, prog), k) {
      GroupFits(tracksTime, Cleared(cfg, prog), Packed(cfg, prog).value, k, i, m);
    } else {
      SingleLine(cfg, prog, i, k);
      DedupAt(Packed(cfg, prog).value, i);
    }
  }

  /** In a group that was looked at, the last line is short enough on its own. */
  lemma LastLineFits(tracksTime: bool, lines: seq<Line>, s: nat, k: nat, last: bool, m: JumpLabels)
    requires s < k < |lines| && GroupLast(StandardLayout(tracksTime), lines, s) == Some(k)
    requires Numbers99(m) && UsedIn(DedupStmts(lines[k].stmts, last).stmts) <= m.Keys
    ensures |LineText(WithCounter(tracksTime, NumberStmts(m, DedupStmts(lines[k].stmts, last).stmts)))| < 70
  {
    var lay := StandardLayout(tracksTime);
    StandardIsSensible(tracksTime);
    CheckedFits(lay, lines, s);
    assert lines[s..k + 1] == lines[s..k] + [lines[k]];
    ConcatSnoc(lines[s..k], lines[k]);
    assert lay.len(lines[k].stmts) <= lay.len(Concat(lines[s..k]) + lines[k].stmts);
    FinalLineFits(tracksTime, lines[k].stmts, last, m);
  }

  lemma ShortWithoutText(tracksTime: bool)
    ensures |LineText(WithCounter(tracksTime, []))| < 70
  {
    CounterLen([]);
  }

  /** A line that is too long, and that nobody looks at, is a line of the code. */
  lemma UnseenStaysLong(cfg: Config, tracksTime: bool, prog: seq<Element>, k: nat) returns (j: nat)
    requires cfg.lay == StandardLayout(tracksTime) && Compile(cfg, prog).Compiled?
    requires LongUnseen(tracksTime, Cleared(cfg, prog), LabelsOf(cfg, prog), k)
    ensures LongLine(tracksTime, Compile(cfg, prog).code, j)
  {
    var lines, m := Cleared(cfg, prog), LabelsOf(cfg, prog);
    var i, s;
    j, i, s := LineComesTo(cfg, prog, k);
    LastOfGroup(cfg.lay, lines, s, k);
    LabelNumbers(cfg, prog);
    if s < k {
      LastLineFits(tracksTime, lines, s, k, GotoBefore(lines, k), m);
    }
    SingleLine(cfg, prog, i, k);
    ShortWithoutText(tracksTime);
  }

  /** Some line of the compiled code has 70 characters or more, with the line counter if there is one, if and only if
      one of the lines that the compiler does not look at has: the last one, and those that may not be extended. */
  lemma CompiledLinesFit(cfg: Config, tracksTime: bool, prog: seq<Element>)
    requires cfg.lay == StandardLayout(tracksTime) && Compile(cfg, prog).Compiled?
    ensures (exists j :: LongLine(tracksTime, Compile(cfg, prog).code, j)) <==>
            (exists k :: LongUnseen(tracksTime, Cleared(cfg, prog), LabelsOf(cfg, prog), k))
  {
    if j :| LongLine(tracksTime, Compile(cfg, prog).code, j) {
      var k := LongComesFrom(cfg, tracksTime, prog, j);
    }
    if k :| LongUnseen(tracksTime, Cleared(cfg, prog), LabelsOf(cfg, prog), k) {
      var j := UnseenStaysLong(cfg, tracksTime, prog, k);
    }
  }

  /** Such a line was too long from the start: neither numbers nor the counter can make a line too long. */
  lemma LongWasTooLong(tracksTime: bool, lines: seq<Line>, m: JumpLabels, k: nat)
    requires LongUnseen(tracksTime, lines, m, k) && Numbers99(m)
    ensures TooLongUnseen(StandardLayout(tracksTime), lines, k)
  {
    if PrintedLen(lines[k].stmts) <= StandardLayout(tracksTime).max {
      FinalLineFits(tracksTime, lines[k].stmts, GotoBefore(lines, k), m);
    }
  }

  lemma {:induction false} KeptWithoutGotos(m: JumpLabels, ss: seq<Stmt>, last: bool)
    requires UsedIn(ss) == {}
    ensures DedupStmts(ss, last).stmts == ss && NumberStmts(m, ss) == ss
    decreases ss, 0
  {
    if ss != [] {
      KeptStmt(m, ss[0]);
      KeptWithoutGotos(m, ss[1..], false);
      assert ss == [ss[0]] + ss[1..];
    }
  }

  lemma {:induction false} KeptStmt(m: JumpLabels, s: Stmt)
    requires UsedInStmt(s) == {}
    ensures DedupStmt(s) == s && NumberStmt(m, s) == s
    decreases s, 1
  {
    if s.If? {
      KeptWithoutGotos(m, s.thn, false);
      KeptWithoutGotos(m, s.els, false);
    }
  }

  /** Without gotos, a line is too long in the end if it was too long from the start; only a space in front of its first
      statement can be saved behind the counter. */
  lemma TooLongStaysLong(tracksTime: bool, lines: seq<Line>, m: JumpLabels, k: nat)
    requires TooLongUnseen(StandardLayout(tracksTime), lines, k) && UsedIn(lines[k].stmts) == {}
    requires !tracksTime || Render(ListPieces(lines[k].stmts), true) == Render(ListPieces(lines[k].stmts), false)
    ensures LongUnseen(tracksTime, lines, m, k)
  {
    KeptWithoutGotos(m, lines[k].stmts, GotoBefore(lines, k));
    if tracksTime {
      CounterAdds(lines[k].stmts);
    }
  }

  /** The same for the converter, whose counter is the first variable that gets a short name. */
  lemma ConvertedLinesFit(cfg: Config, tracksTime: bool, prog: seq<Element>)
    requires cfg.lay == StandardLayout(tracksTime) && Converted(cfg, tracksTime, prog).Compiled?
    ensures (exists j :: LongText(Converted(cfg, tracksTime, prog).code, j)) <==>
            (exists k :: LongUnseen(tracksTime, Cleared(cfg, Shortened(prog).1), LabelsOf(cfg, Shortened(prog).1), k))
  {
    var (n, prog') := Shortened(prog);
    CounterIsA(prog);
    CompiledLinesFit(cfg, tracksTime, prog');
    var code, code' := Compile(cfg, prog').code, Converted(cfg, tracksTime, prog).code;
    if j :| LongText(code', j) {
      assert LongLine(tracksTime, code, j);
    }
    if j :| LongLine(tracksTime, code, j) {
      assert LongText(code', j);
    }
  }

  predicate LongText(code: Code, j: nat) {
    j < |code| && |LineText(code[j])| >= 70
  }

  lemma CounterIsA(prog: seq<Element>)
    ensures CounterName(Shortened(prog).0) == "a"
  {
    var n := Shortened(prog).0;
    StartNamesOk();
    CounterNameIsShort();
    NameListMapped(START_NAMES, prog, n);
    assert RESERVED_TIME_VARIABLE[0] == '_';
    assert START_NAMES.mapping[Lower(RESERVED_TIME_VARIABLE)] == ['a'];
    assert n.mapping[Lower(RESERVED_TIME_VARIABLE)] == ['a'];
  }

  // ---- a line that is too long ----

  lemma LongLineCode(cfg: Config, name: string, one: string)
    requires cfg.Standard()
    ensures Compile(cfg, [Element.Plain(SetLine(name, one))]) == Compiled([[Assign(name, Set, Num(one))]])
  {
    var line := SetLine(name, one);
    var s := line.stmts[0];
    var p := [line];
    assert p[1..] == [] && p[0..] == p && p[0..1] == p && [] + p == p;
    AssignLowered(cfg, name, one);
    AssignPlaced(name, one);
    OneElementCode(cfg, Element.Plain(line));
    assert Placed([Element.Plain(line)][1..], false);
    NoGotos(p);
    assert ClearUnused(p) == p;
    ConcatOne(line);
    assert GroupLast(cfg.lay, p, 0) == Some(0) && Joined(p[0..1]) == line;
    assert MergeFrom(cfg.lay, p, 1, [] + [line]) == Some([] + [line]);
    assert Merge(cfg.lay, p) == Some(p);
    var m: JumpLabels := map[];
    KeptWithoutGotos(m, [s], false);
    assert Dedup(p) == p;
    assert NumberFrom(p, 1, Numbered(m, [] + [line])) == Some(Numbered(m, p));
    assert FindLabels(p) == Some(Numbered(m, p));
    assert NumberLines(m, p) == [[s]];
    assert Placed([Element.Plain(line)], false);
    assert Packed(cfg, [Element.Plain(line)]) == Some(p);
    assert Resolve(p) == Compiled([[s]]);
  }

  /** The only line of a program may be longer than 70 characters: the converter accepts it as it is. */
  lemma LongLineConverted(cfg: Config, tracksTime: bool, name: string, one: string)
    requires cfg.Standard() && IsGlobal(name) && |name| >= 70
    ensures var r := Converted(cfg, tracksTime, [Element.Plain(SetLine(name, one))]);
            r.Compiled? && |r.code| == 1 && |LineText(r.code[0])| > 70
  {
    var line := SetLine(name, one);
    var prog, ss := [Element.Plain(line)], line.stmts;
    assert prog[1..] == [] && ss[1..] == [] && ss + [] == ss && line.(stmts := ss) == line;
    assert RenameExpr(START_NAMES, Num(one)) == (START_NAMES, Num(one)) &&
           Short(START_NAMES, name) == (START_NAMES, name);
    assert NameStmt(START_NAMES, ss[0]) == (START_NAMES, ss[0]);
    assert NameStmts(START_NAMES, ss[1..]) == (START_NAMES, []);
    assert NameStmts(START_NAMES, ss) == (START_NAMES, [ss[0]] + []);
    assert NameElem(START_NAMES, prog[0]) == (START_NAMES, prog[0]);
    assert NameList(START_NAMES, prog[1..]) == (START_NAMES, []);
    assert NameList(START_NAMES, prog) == (START_NAMES, prog + []);
    assert prog + [] == prog;
    assert Shortened(prog) == (START_NAMES, prog);
    CounterIsA(prog);
    LongLineCode(cfg, name, one);
    LongAssign(name, one);
    CounterAdds(ss);
  }
}
