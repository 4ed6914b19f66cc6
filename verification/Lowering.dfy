/** Lowering ifs, loops, break and continue to labels and gotos
    (pkg/nolol/converter_ifs.go, pkg/nolol/converter_loops.go, convertNodes in pkg/nolol/converter.go). */
module Lowering {
  import opened Ast
  import opened Operations
  import opened Nolol
  import opened Labels
  import opened Rewriting
  import opened Inversion
  import opened Folding
  import opened Merging
  import opened Gotos

  /** The converter's settings and the optimizers it holds: `binary` folds binary operations, `sexp` folds
      all operations, `boolexp` shortens negations. */
  datatype Config = Config(d: Decimals, lay: Layout, binary: Expr -> Expr, sexp: Expr -> Expr, boolexp: Expr -> Expr)
  {
    ghost predicate Standard() {
      forall e {:trigger StandardOn(e)} :: StandardOn(e)
    }

    ghost predicate StandardOn(e: Expr) {
      binary(e) == FoldBinary(d, e) && sexp(e) == Fold(d, e) && boolexp(e) == Invert(e)
    }
  }

  function NewConfig(d: Decimals, lay: Layout): (cfg: Config)
    ensures cfg.Standard() && cfg.d == d && cfg.lay == lay
  {
    Config(d, lay, e => FoldBinary(d, e), e => Fold(d, e), e => Invert(e))
  }

  /** How many ifs and loops have been given numbers. */
  datatype Ctr = Ctr(ifs: nat, loops: nat)

  datatype Low = Low(code: seq<Line>, ctr: Ctr)

  // ---- statements ----

  function LowerJump(s: Stmt, lp: Option<nat>): Stmt
    decreases s, 1
  {
    match s
    case Break => if lp.Some? then GotoLabel(Text(LoopEnd(lp.value))) else s
    case Continue => if lp.Some? then GotoLabel(Text(LoopStart(lp.value))) else s
    case If(c, t, e) => If(c, LowerJumps(t, lp), LowerJumps(e, lp))
    case _ => s
  }

  function LowerJumps(ss: seq<Stmt>, lp: Option<nat>): (r: seq<Stmt>)
    ensures |r| == |ss|
    decreases ss, 0
  {
    if ss == [] then [] else [LowerJump(ss[0], lp)] + LowerJumps(ss[1..], lp)
  }

  function LowerStmts(cfg: Config, ss: seq<Stmt>, lp: Option<nat>): seq<Stmt> {
    RewriteStmts(cfg.binary, LowerJumps(ss, lp))
  }

  function LowerLine(cfg: Config, line: Line, lp: Option<nat>): Line {
    line.(stmts := LowerStmts(cfg, line.stmts, lp))
  }

  // ---- one branch of an if ----

  function Bare(ss: seq<Stmt>): Line {
    Line("", false, false, ss)
  }

  function Mark(g: Gen): Line {
    Line(Text(g), false, false, [])
  }

  /** The statements of a block that is merged to at most one line. */
  function InlineStmts(merged: seq<Line>, end: Option<Gen>): seq<Stmt> {
    if merged == [] then []
    else if end.Some? then merged[0].stmts + [GotoLabel(Text(end.value))]
    else merged[0].stmts
  }

  /** A block that cannot be merged because of a line that is too long counts as an empty block. */
  function MergedBlock(cfg: Config, body: seq<Line>): seq<Line> {
    match Merge(cfg.lay, body)
    case None => []
    case Some(m) => m
  }

  function InlineIf(cond: Expr, merged: seq<Line>, end: Option<Gen>): seq<Stmt> {
    DedupStmts([If(cond, InlineStmts(merged, end), [])], false).stmts
  }

  /** The branch as a single line, if it has no labels and is short enough for that. */
  function InlineBranch(cfg: Config, cond: Expr, body: seq<Line>, end: Option<Gen>): Option<Line> {
    var merged := MergedBlock(cfg, body);
    if |merged| > 1 || (|merged| > 0 && merged[0].lbl != "") then None
    else if cfg.lay.len(InlineIf(cond, merged, end)) > cfg.lay.max then None
    else Some(Bare(InlineIf(cond, merged, end)))
  }

  /** `if cond then goto target end` */
  function GotoIf(cond: Expr, target: Gen): Stmt {
    If(cond, [GotoLabel(Text(target))], [])
  }

  /** The branch as several lines, which are skipped if the negated condition holds. */
  function LongBranch(cfg: Config, skip: Gen, cond: Expr, body: seq<Line>, end: Option<Gen>): seq<Line> {
    [Bare([GotoIf(cfg.boolexp(Un(Not, cond)), skip)])] + body +
    (if end.Some? then [Bare([GotoLabel(Text(end.value))])] else []) + [Mark(skip)]
  }

  /** The statements with the gotos behind gotos deleted in the blocks that are nested in them. */
  function TidyStmts(ss: seq<Stmt>): (r: seq<Stmt>)
    ensures |r| == |ss|
  {
    if ss == [] then [] else [DedupStmt(ss[0])] + TidyStmts(ss[1..])
  }

  function TidyLine(line: Line): Line {
    line.(stmts := TidyStmts(line.stmts))
  }

  function TidyLines(p: seq<Line>): (r: seq<Line>)
    ensures |r| == |p|
  {
    seq(|p|, i requires 0 <= i < |p| => TidyLine(p[i]))
  }

  /** What the attempt to make a single line leaves of the block: the statements are shared, so gotos are deleted in the
      blocks nested in them, even if the line turns out to be too long. */
  function Attempted(cfg: Config, body: seq<Line>): seq<Line> {
    var merged := MergedBlock(cfg, body);
    if |merged| == 1 && merged[0].lbl == "" then TidyLines(body) else body
  }

  function BranchCode(cfg: Config, n: nat, i: nat, cond: Expr, body: seq<Line>, end: Option<Gen>): seq<Line> {
    match InlineBranch(cfg, cond, body, end)
    case Some(line) => [line]
    case None => LongBranch(cfg, IfSkip(n, i), cond, Attempted(cfg, body), end)
  }

  /** Only the last branch of an if without else needs no jump to the end. */
  function EndOf(n: nat, i: nat, count: nat, hasElse: bool): Option<Gen> {
    if hasElse || i + 1 < count then Some(IfEnd(n)) else None
  }

  function BranchesCode(cfg: Config, n: nat, i: nat, conds: seq<Expr>, bodies: seq<seq<Line>>, hasElse: bool): seq<Line>
    requires |conds| == |bodies| && i <= |conds|
    decreases |conds| - i
  {
    if i == |conds| then []
    else BranchCode(cfg, n, i, conds[i], bodies[i], EndOf(n, i, |conds|, hasElse)) +
         BranchesCode(cfg, n, i + 1, conds, bodies, hasElse)
  }

  function IfCode(cfg: Config, n: nat, conds: seq<Expr>, bodies: seq<seq<Line>>, hasElse: bool,
                  els: seq<Line>): seq<Line>
    requires |conds| == |bodies|
  {
    BranchesCode(cfg, n, 0, conds, bodies, hasElse) + els + [Mark(IfEnd(n))]
  }

  // ---- loops ----

  function LoopCond(cfg: Config, cond: Expr): Expr {
    cfg.sexp(cfg.binary(cond))
  }

  predicate AlwaysTrue(cfg: Config, cond: Expr) {
    cond.Num? && cfg.d.parse(cond.digits).Some? && cfg.d.parse(cond.digits).value != 0.0
  }

  function LoopHead(cfg: Config, n: nat, cond: Expr): Line {
    var c := LoopCond(cfg, cond);
    Line(Text(LoopStart(n)), false, false,
         if AlwaysTrue(cfg, c) then [] else [GotoIf(cfg.boolexp(Un(Not, c)), LoopEnd(n))])
  }

  function WhileCode(cfg: Config, n: nat, cond: Expr, body: seq<Line>): seq<Line> {
    [LoopHead(cfg, n, cond)] + body + [Bare([GotoLabel(Text(LoopStart(n)))]), Mark(LoopEnd(n))]
  }

  // ---- whole programs ----

  /** The conditions of an if are converted like all other expressions. */
  function Conds(cfg: Config, branches: seq<Branch>): (r: seq<Expr>)
    ensures |r| == |branches|
  {
    seq(|branches|, i requires 0 <= i < |branches| => cfg.binary(branches[i].cond))
  }

  function LowerList(cfg: Config, es: seq<Element>, c: Ctr, lp: Option<nat>): Low
    decreases es, 0
  {
    if es == [] then Low([], c)
    else
      var a := LowerElem(cfg, es[0], c, lp);
      var b := LowerList(cfg, es[1..], a.ctr, lp);
      Low(a.code + b.code, b.ctr)
  }

  /** An if is numbered when its blocks have been converted, a loop before. */
  function LowerElem(cfg: Config, e: Element, c: Ctr, lp: Option<nat>): Low
    decreases e, 2
  {
    match e
    case Plain(line) => Low([LowerLine(cfg, line, lp)], c)
    case MultiIf(branches, els) =>
      var (bodies, c1) := LowerBodies(cfg, branches, c, lp);
      var r := LowerElse(cfg, els, c1, lp);
      Low(IfCode(cfg, r.ctr.ifs, Conds(cfg, branches), bodies, els.ElseBlock?, r.code), r.ctr.(ifs := r.ctr.ifs + 1))
    case While(cond, body) =>
      var n := c.loops + 1;
      var r := LowerList(cfg, body, c.(loops := n), Some(n));
      Low(WhileCode(cfg, n, cond, r.code), r.ctr)
  }

  function LowerBodies(cfg: Config, branches: seq<Branch>, c: Ctr, lp: Option<nat>): (r: (seq<seq<Line>>, Ctr))
    ensures |r.0| == |branches|
    decreases branches, 1
  {
    if branches == [] then ([], c)
    else
      var a := LowerList(cfg, branches[0].body, c, lp);
      var (bs, c') := LowerBodies(cfg, branches[1..], a.ctr, lp);
      ([a.code] + bs, c')
  }

  function LowerElse(cfg: Config, els: Else, c: Ctr, lp: Option<nat>): Low
    decreases els, 1
  {
    match els
    case NoElse => Low([], c)
    case ElseBlock(es) => LowerList(cfg, es, c, lp)
  }

  function LowerProgram(cfg: Config, prog: seq<Element>): seq<Line> {
    LowerList(cfg, prog, Ctr(0, 0), None).code
  }

  // ---- break and continue outside of loops ----

  predicate JumpPlaced(s: Stmt, inLoop: bool)
    decreases s, 1
  {
    match s
    case Break => inLoop
    case Continue => inLoop
    case If(_, t, e) => JumpsPlaced(t, inLoop) && JumpsPlaced(e, inLoop)
    case _ => true
  }

  predicate JumpsPlaced(ss: seq<Stmt>, inLoop: bool)
    decreases ss, 0
  {
    ss == [] || (JumpPlaced(ss[0], inLoop) && JumpsPlaced(ss[1..], inLoop))
  }

  /** Break and continue stand inside of loops only. */
  predicate Placed(es: seq<Element>, inLoop: bool)
    decreases es, 0
  {
    es == [] || (PlacedElem(es[0], inLoop) && Placed(es[1..], inLoop))
  }

  predicate PlacedElem(e: Element, inLoop: bool)
    decreases e, 2
  {
    match e
    case Plain(line) => JumpsPlaced(line.stmts, inLoop)
    case MultiIf(branches, els) => PlacedBranches(branches, inLoop) && PlacedElse(els, inLoop)
    case While(_, body) => Placed(body, true)
  }

  predicate PlacedBranches(branches: seq<Branch>, inLoop: bool)
    decreases branches, 1
  {
    branches == [] || (Placed(branches[0].body, inLoop) && PlacedBranches(branches[1..], inLoop))
  }

  predicate PlacedElse(els: Else, inLoop: bool)
    decreases els, 1
  {
    match els
    case NoElse => true
    case ElseBlock(es) => Placed(es, inLoop)
  }

  // ---- the converter ----

  /** The traversal that replaces every element by its code. `loopLevel` holds the numbers of the loops
      around the current place, the innermost one last. */
  class Converter {
    const cfg: Config
    var ifLabelCounter: nat
    var loopCounter: nat
    var loopLevel: seq<nat>

    constructor (cfg: Config)
      ensures this.cfg == cfg && Count() == Ctr(0, 0) && Level() == None && loopLevel == []
    {
      this.cfg := cfg;
      ifLabelCounter, loopCounter, loopLevel := 0, 0, [];
    }

    ghost function Count(): Ctr
      reads this
    {
      Ctr(ifLabelCounter, loopCounter)
    }

    ghost function Level(): Option<nat>
      reads this
    {
      if loopLevel == [] then None else Some(loopLevel[|loopLevel| - 1])
    }

    method ConvertStatement(s: Stmt) returns (ok: bool, r: Stmt)
      ensures ok <==> JumpPlaced(s, loopLevel != [])
      ensures ok ==> r == RewriteStmt(cfg.binary, LowerJump(s, Level()))
      decreases s, 1
    {
      ok, r := true, s;
      match s
      case Break =>
        if |loopLevel| == 0 {
          return false, s;
        }
        r := GotoLabel(Text(LoopEnd(loopLevel[|loopLevel| - 1])));
      case Continue =>
        if |loopLevel| == 0 {
          return false, s;
        }
        r := GotoLabel(Text(LoopStart(loopLevel[|loopLevel| - 1])));
      case If(c, t, e) =>
        var ok1, t' := ConvertStatements(t);
        var ok2, e' := ConvertStatements(e);
        ok, r := ok1 && ok2, If(cfg.binary(c), t', e');
      case Assign(x, aop, e) =>
        r := Assign(x, aop, cfg.binary(e));
      case Goto(e) =>
        r := Goto(cfg.binary(e));
      case _ =>
    }

    method ConvertStatements(ss: seq<Stmt>) returns (ok: bool, r: seq<Stmt>)
      ensures ok <==> JumpsPlaced(ss, loopLevel != [])
      ensures ok ==> r == LowerStmts(cfg, ss, Level())
      decreases ss, 0
    {
      r := [];
      var i := 0;
      while i < |ss|
        invariant 0 <= i <= |ss|
        invariant JumpsPlaced(ss, loopLevel != []) <==> JumpsPlaced(ss[i..], loopLevel != [])
        invariant LowerStmts(cfg, ss, Level()) == r + LowerStmts(cfg, ss[i..], Level())
      {
        var ok1, s := ConvertStatement(ss[i]);
        if !ok1 {
          return false, r;
        }
        LowerStmtsCons(cfg, ss[i..], Level());
        assert ss[i..][1..] == ss[i + 1..];
        r := r + [s];
        i := i + 1;
      }
      ok := true;
    }

    /** Tries to make a single line of a branch. The statements of the block are changed by that, and `block` holds its
        lines as they are then. */
    method ConvertConditionInline(cond: Expr, body: seq<Line>, end: Option<Gen>)
        returns (r: Option<Line>, block: seq<Line>)
      ensures r == InlineBranch(cfg, cond, body, end) && block == Attempted(cfg, body)
    {
      block := body;
      var m := MergeStatementElements(cfg.lay, body);
      var merged := if m.Some? then m.value else [];
      if |merged| > 1 || (|merged| > 0 && merged[0].lbl != "") {
        return None, block;
      }
      var statements := [];
      if |merged| > 0 {
        statements := merged[0].stmts;
        if end.Some? {
          statements := statements + [GotoLabel(Text(end.value))];
        }
        block := DedupShared(body);
      }
      var repl, _ := DedupList([If(cond, statements, [])], false);
      if cfg.lay.len(repl) > cfg.lay.max {
        return None, block;
      }
      r := Some(Bare(repl));
    }

    /** The deletion of gotos as it shows in lines whose statements are shared. */
    method DedupShared(body: seq<Line>) returns (block: seq<Line>)
      ensures block == TidyLines(body)
    {
      block := body;
      var i := 0;
      while i < |block|
        invariant 0 <= i <= |block| == |body|
        invariant forall j :: 0 <= j < |body| ==> block[j] == if j < i then TidyLine(body[j]) else body[j]
      {
        var ss := body[i].stmts;
        var k := 0;
        while k < |ss|
          invariant 0 <= k <= |ss| == |body[i].stmts|
          invariant ss[k..] == body[i].stmts[k..]
          invariant TidyStmts(body[i].stmts) == ss[..k] + TidyStmts(body[i].stmts[k..])
        {
          var s := DedupNested(ss[k]);
          assert body[i].stmts[k..][1..] == body[i].stmts[k + 1..] && body[i].stmts[k..][0] == ss[k];
          ss := ss[k := s];
          k := k + 1;
        }
        assert ss[..k] == ss && body[i].stmts[k..] == [];
        block := block[i := block[i].(stmts := ss)];
        i := i + 1;
      }
    }

    method ConvertConditionMultiline(i: nat, cond: Expr, body: seq<Line>, end: Option<Gen>) returns (repl: seq<Line>)
      ensures repl == LongBranch(cfg, IfSkip(ifLabelCounter, i), cond, body, end)
    {
      var skip := IfSkip(ifLabelCounter, i);
      repl := [Bare([GotoIf(cfg.boolexp(Un(Not, cond)), skip)])] + body;
      if end.Some? {
        repl := repl + [Bare([GotoLabel(Text(end.value))])];
      }
      repl := repl + [Mark(skip)];
    }

    /** Replaces an if whose blocks have been converted already. */
    method ConvertIf(conds: seq<Expr>, blocks: seq<seq<Line>>, elseLines: Option<seq<Line>>) returns (repl: seq<Line>)
      requires |conds| == |blocks|
      modifies this`ifLabelCounter
      ensures repl == IfCode(cfg, old(ifLabelCounter), conds, blocks, elseLines.Some?,
                             if elseLines.Some? then elseLines.value else [])
      ensures ifLabelCounter == old(ifLabelCounter) + 1
    {
      var n := ifLabelCounter;
      var hasElse := elseLines.Some?;
      repl := [];
      var i := 0;
      while i < |conds|
        invariant 0 <= i <= |conds| && ifLabelCounter == n
        invariant BranchesCode(cfg, n, 0, conds, blocks, hasElse) ==
                  repl + BranchesCode(cfg, n, i, conds, blocks, hasElse)
      {
        var end: Option<Gen> := None;
        if hasElse || i < |conds| - 1 {
          end := Some(IfEnd(n));
        }
        BranchesStep(cfg, n, i, conds, blocks, hasElse, repl);
        var condline, block := ConvertConditionInline(conds[i], blocks[i], end);
        if condline.Some? {
          repl := repl + [condline.value];
        } else {
          var condlines := ConvertConditionMultiline(i, conds[i], block, end);
          repl := repl + condlines;
        }
        i := i + 1;
      }
      assert repl + [] == repl;
      if hasElse {
        repl := repl + elseLines.value;
      }
      repl := repl + [Mark(IfEnd(n))];
      ifLabelCounter := ifLabelCounter + 1;
    }

    /** Replaces the innermost loop, whose block has been converted already. */
    method ConvertWhileLoop(cond: Expr, block: seq<Line>) returns (repl: seq<Line>)
      requires loopLevel != []
      ensures repl == WhileCode(cfg, loopLevel[|loopLevel| - 1], cond, block)
    {
      var n := loopLevel[|loopLevel| - 1];
      var head := Mark(LoopStart(n));
      var condition := cfg.sexp(cfg.binary(cond));
      var always := false;
      if condition.Num? {
        var number := cfg.d.parse(condition.digits);
        if number.Some? && number.value != 0.0 {
          always := true;
        }
      }
      if !always {
        head := head.(stmts := [GotoIf(cfg.boolexp(Un(Not, condition)), LoopEnd(n))]);
      }
      repl := [head] + block;
      repl := repl + [Bare([GotoLabel(Text(LoopStart(n)))])];
      repl := repl + [Mark(LoopEnd(n))];
      assert repl == WhileCode(cfg, n, cond, block);
    }

    method ConvertBlock(es: seq<Element>) returns (ok: bool, code: seq<Line>)
      modifies this
      ensures loopLevel == old(loopLevel)
      ensures ok <==> Placed(es, loopLevel != [])
      ensures ok ==> Low(code, Count()) == LowerList(cfg, es, old(Count()), Level())
      decreases es, 0
    {
      ok, code := true, [];
      if es != [] {
        var ok1, a := ConvertElement(es[0]);
        if !ok1 {
          return false, [];
        }
        var ok2, b := ConvertBlock(es[1..]);
        ok, code := ok2, a + b;
      }
    }

    method ConvertElement(e: Element) returns (ok: bool, code: seq<Line>)
      modifies this
      ensures loopLevel == old(loopLevel)
      ensures ok <==> PlacedElem(e, loopLevel != [])
      ensures ok ==> Low(code, Count()) == LowerElem(cfg, e, old(Count()), Level())
      decreases e, 2
    {
      match e {
        case Plain(line) =>
          var ok1, ss := ConvertStatements(line.stmts);
          ok, code := ok1, [line.(stmts := ss)];
        case MultiIf(_, _) =>
          ok, code := ConvertMultiIf(e);
        case While(_, _) =>
          ok, code := ConvertWhile(e);
      }
    }

    /** Visits the blocks of an if, then the if itself. */
    method ConvertMultiIf(e: Element) returns (ok: bool, code: seq<Line>)
      requires e.MultiIf?
      modifies this
      ensures loopLevel == old(loopLevel)
      ensures ok <==> PlacedElem(e, loopLevel != [])
      ensures ok ==> Low(code, Count()) == LowerElem(cfg, e, old(Count()), Level())
      decreases e, 1
    {
      var blocks, elseLines;
      ok, blocks, elseLines := ConvertBlocks(e);
      code := [];
      if ok {
        code := ConvertIf(Conds(cfg, e.branches), blocks, elseLines);
      }
    }

    method ConvertBlocks(e: Element) returns (ok: bool, blocks: seq<seq<Line>>, elseLines: Option<seq<Line>>)
      requires e.MultiIf?
      modifies this
      ensures loopLevel == old(loopLevel)
      ensures ok <==> PlacedElem(e, loopLevel != [])
      ensures ok ==> var (bodies, c1) := LowerBodies(cfg, e.branches, old(Count()), Level());
                     blocks == bodies && elseLines.Some? == e.els.ElseBlock? &&
                     Low(if elseLines.Some? then elseLines.value else [], Count()) == LowerElse(cfg, e.els, c1, Level())
      decreases e, 0
    {
      elseLines := None;
      ok, blocks := ConvertBranches(e.branches);
      if ok {
        ok, elseLines := ConvertElse(e.els);
      }
    }

    method ConvertElse(els: Else) returns (ok: bool, r: Option<seq<Line>>)
      modifies this
      ensures loopLevel == old(loopLevel)
      ensures ok <==> PlacedElse(els, loopLevel != [])
      ensures ok ==> r.Some? == els.ElseBlock?
      ensures ok ==> Low(if r.Some? then r.value else [], Count()) == LowerElse(cfg, els, old(Count()), Level())
      decreases els, 1
    {
      ok, r := true, None;
      if els.ElseBlock? {
        var code;
        ok, code := ConvertBlock(els.es);
        r := Some(code);
      }
    }

    /** Enters a loop, visits its block, then the loop itself. */
    method ConvertWhile(e: Element) returns (ok: bool, code: seq<Line>)
      requires e.While?
      modifies this
      ensures loopLevel == old(loopLevel)
      ensures ok <==> PlacedElem(e, loopLevel != [])
      ensures ok ==> Low(code, Count()) == LowerElem(cfg, e, old(Count()), Level())
      decreases e, 1
    {
      ghost var level := loopLevel;
      loopCounter := loopCounter + 1;
      loopLevel := loopLevel + [loopCounter];
      var block;
      ok, block := ConvertBlock(e.body);
      code := [];
      if ok {
        code := ConvertWhileLoop(e.cond, block);
      }
      loopLevel := loopLevel[..|loopLevel| - 1];
      assert loopLevel == level;
    }

    method ConvertBranches(branches: seq<Branch>) returns (ok: bool, blocks: seq<seq<Line>>)
      modifies this
      ensures loopLevel == old(loopLevel)
      ensures ok <==> PlacedBranches(branches, loopLevel != [])
      ensures ok ==> (blocks, Count()) == LowerBodies(cfg, branches, old(Count()), Level())
      decreases branches, 1
    {
      ok, blocks := true, [];
      if branches != [] {
        var ok1, a := ConvertBlock(branches[0].body);
        if !ok1 {
          return false, [];
        }
        var ok2, bs := ConvertBranches(branches[1..]);
        ok, blocks := ok2, [a] + bs;
      }
    }
  }

  lemma BranchesStep(cfg: Config, n: nat, i: nat, conds: seq<Expr>, bodies: seq<seq<Line>>, hasElse: bool,
                     done: seq<Line>)
    requires |conds| == |bodies| && i < |conds|
    ensures done + BranchesCode(cfg, n, i, conds, bodies, hasElse) ==
            done + BranchCode(cfg, n, i, conds[i], bodies[i], EndOf(n, i, |conds|, hasElse)) +
            BranchesCode(cfg, n, i + 1, conds, bodies, hasElse)
  {
  }

  lemma LowerStmtsCons(cfg: Config, ss: seq<Stmt>, lp: Option<nat>)
    requires ss != []
    ensures LowerStmts(cfg, ss, lp) ==
            [RewriteStmt(cfg.binary, LowerJump(ss[0], lp))] + LowerStmts(cfg, ss[1..], lp)
  {
    assert LowerJumps(ss, lp)[1..] == LowerJumps(ss[1..], lp);
  }
}
