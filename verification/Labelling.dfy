/** What no pass of the compiler introduces before the labels are numbered: gotos to line numbers, occurrences of a
    variable that does not occur in the program, and writes of a variable that the program does not write. */
module Labelling {
  import opened Ast
  import opened Operations
  import opened Nolol
  import opened Labels
  import opened Inversion
  import opened Rewriting
  import opened Folding
  import opened Merging
  import opened Gotos
  import opened Numbering
  import opened Lowering
  import opened LineCounter

  /** What a program is free of, besides gotos to line numbers. */
  datatype Ban = Nothing | Occurrences(name: string) | Writes(name: string)

  predicate AbsentExpr(c: Ban, e: Expr) {
    match c
    case Nothing => true
    case Occurrences(v) => FreeExpr(v, e)
    case Writes(v) => WritesOther(v, e)
  }

  predicate AbsentStmt(c: Ban, s: Stmt) {
    match c
    case Nothing => true
    case Occurrences(v) => FreeStmt(v, s)
    case Writes(v) => StmtWritesOther(v, s)
  }

  predicate Absent(c: Ban, ss: seq<Stmt>) {
    match c
    case Nothing => true
    case Occurrences(v) => FreeStmts(v, ss)
    case Writes(v) => StmtsWriteOther(v, ss)
  }

  /** There is no goto to a line number, and nothing that is banned. */
  predicate CleanStmt(c: Ban, s: Stmt) {
    LabelledStmt(s) && AbsentStmt(c, s)
  }

  predicate Clean(c: Ban, ss: seq<Stmt>) {
    Labelled(ss) && Absent(c, ss)
  }

  ghost predicate CleanLines(c: Ban, p: seq<Line>) {
    forall i :: 0 <= i < |p| ==> Clean(c, p[i].stmts)
  }

  predicate CleanList(c: Ban, es: seq<Element>)
    decreases es, 0
  {
    es == [] || (CleanElem(c, es[0]) && CleanList(c, es[1..]))
  }

  predicate CleanElem(c: Ban, e: Element)
    decreases e, 2
  {
    match e
    case Plain(line) => Clean(c, line.stmts)
    case MultiIf(branches, els) => CleanBranches(c, branches) && (els.ElseBlock? ==> CleanList(c, els.es))
    case While(cond, body) => AbsentExpr(c, cond) && CleanList(c, body)
  }

  predicate CleanBranches(c: Ban, branches: seq<Branch>)
    decreases branches, 1
  {
    branches == [] ||
    (AbsentExpr(c, branches[0].cond) && CleanList(c, branches[0].body) && CleanBranches(c, branches[1..]))
  }

  /** NOLOL has gotos to labels only. */
  predicate NumberFree(es: seq<Element>) {
    CleanList(Nothing, es)
  }

  // ---- lists ----

  lemma {:induction false} CleanAppend(c: Ban, a: seq<Stmt>, b: seq<Stmt>)
    requires Clean(c, a) && Clean(c, b)
    ensures Clean(c, a + b)
  {
    if a == [] {
      assert a + b == b;
    } else {
      assert (a + b)[0] == a[0] && (a + b)[1..] == a[1..] + b;
      CleanTail(c, a);
      CleanAppend(c, a[1..], b);
    }
  }

  lemma CleanTail(c: Ban, ss: seq<Stmt>)
    requires ss != [] && Clean(c, ss)
    ensures CleanStmt(c, ss[0]) && Clean(c, ss[1..])
  {
  }

  lemma CleanOne(c: Ban, s: Stmt)
    requires CleanStmt(c, s)
    ensures Clean(c, [s])
  {
    assert [s][1..] == [];
  }

  lemma CleanGoto(c: Ban, l: LabelName)
    ensures Clean(c, [GotoLabel(l)])
  {
    CleanOne(c, GotoLabel(l));
  }

  lemma LinesAppend(c: Ban, a: seq<Line>, b: seq<Line>)
    requires CleanLines(c, a) && CleanLines(c, b)
    ensures CleanLines(c, a + b)
  {
  }

  lemma OneLine(c: Ban, line: Line)
    requires Clean(c, line.stmts)
    ensures CleanLines(c, [line])
  {
  }

  // ---- chains ----

  lemma {:induction false} ChainedStmt(c: Ban, p: seq<Line>, s: Stmt, s': Stmt)
    requires ChainStmt(p, s, s') && CleanStmt(c, s)
    ensures CleanStmt(c, s')
    decreases s, 1
  {
    if s.If? {
      ChainedStmts(c, p, s.thn, s'.thn);
      ChainedStmts(c, p, s.els, s'.els);
    }
  }

  lemma {:induction false} ChainedStmts(c: Ban, p: seq<Line>, ss: seq<Stmt>, ss': seq<Stmt>)
    requires ChainStmts(p, ss, ss') && Clean(c, ss)
    ensures Clean(c, ss')
    decreases ss, 0
  {
    if ss != [] {
      CleanTail(c, ss);
      assert ChainStmt(p, ss[0], ss'[0]);
      ChainedStmt(c, p, ss[0], ss'[0]);
      forall k | 0 <= k < |ss[1..]| ensures ChainStmt(p, ss[1..][k], ss'[1..][k]) {
        assert ChainStmt(p, ss[k + 1], ss'[k + 1]);
      }
      ChainedStmts(c, p, ss[1..], ss'[1..]);
      CleanOne(c, ss'[0]);
      CleanAppend(c, [ss'[0]], ss'[1..]);
      assert [ss'[0]] + ss'[1..] == ss';
    }
  }

  lemma ResolveClean(c: Ban, p: seq<Line>)
    requires CleanLines(c, p)
    ensures CleanLines(c, ResolveChains(p))
  {
    ResolveChainsChain(p);
    var q := ResolveChains(p);
    forall i | 0 <= i < |q| ensures Clean(c, q[i].stmts) {
      assert ChainLine(p, p[i], q[i]);
      ChainedStmts(c, p, p[i].stmts, q[i].stmts);
    }
  }

  // ---- duplicate gotos ----

  lemma {:induction false} DedupStmtClean(c: Ban, s: Stmt)
    requires CleanStmt(c, s)
    ensures CleanStmt(c, DedupStmt(s))
    decreases s, 1
  {
    if s.If? {
      DedupStmtsClean(c, s.thn, false);
      DedupStmtsClean(c, s.els, false);
    }
  }

  lemma {:induction false} DedupStmtsClean(c: Ban, ss: seq<Stmt>, last: bool)
    requires Clean(c, ss)
    ensures Clean(c, DedupStmts(ss, last).stmts)
    decreases ss, 0
  {
    if ss != [] {
      CleanTail(c, ss);
      DedupStmtsClean(c, ss[1..], ss[0].GotoLabel?);
      DedupStmtClean(c, ss[0]);
      CleanOne(c, DedupStmt(ss[0]));
      CleanAppend(c, [DedupStmt(ss[0])], DedupStmts(ss[1..], ss[0].GotoLabel?).stmts);
    }
  }

  lemma DedupClean(c: Ban, p: seq<Line>)
    requires CleanLines(c, p)
    ensures CleanLines(c, Dedup(p))
  {
    forall i | 0 <= i < |p| ensures Clean(c, Dedup(p)[i].stmts) {
      DedupStmtsClean(c, p[i].stmts, GotoBefore(p, i));
    }
  }

  // ---- merging ----

  lemma {:induction false} ConcatClean(c: Ban, p: seq<Line>)
    requires CleanLines(c, p)
    ensures Clean(c, Concat(p))
  {
    if p != [] {
      ConcatClean(c, p[1..]);
      CleanAppend(c, p[0].stmts, Concat(p[1..]));
    }
  }

  lemma {:induction false} MergeFromClean(c: Ban, lay: Layout, p: seq<Line>, i: nat, done: seq<Line>)
    requires i <= |p| && CleanLines(c, p) && CleanLines(c, done) && MergeFrom(lay, p, i, done).Some?
    ensures CleanLines(c, MergeFrom(lay, p, i, done).value)
    decreases |p| - i
  {
    if i < |p| {
      var k := GroupLast(lay, p, i).value + 1;
      ConcatClean(c, p[i..k]);
      LinesAppend(c, done, [Joined(p[i..k])]);
      MergeFromClean(c, lay, p, k, done + [Joined(p[i..k])]);
    }
  }

  lemma MergeClean(c: Ban, lay: Layout, p: seq<Line>)
    requires CleanLines(c, p) && Merge(lay, p).Some?
    ensures CleanLines(c, Merge(lay, p).value)
  {
    MergeFromClean(c, lay, p, 0, []);
  }

  // ---- expressions ----

  /** One step down in an expression. */
  lemma AbsentParts(c: Ban, e: Expr)
    ensures e.Bin? ==> (AbsentExpr(c, e) <==> AbsentExpr(c, e.left) && AbsentExpr(c, e.right))
    ensures e.Un? ==> (AbsentExpr(c, e) <==> AbsentExpr(c, e.arg))
    ensures e.Str? || e.Num? ==> AbsentExpr(c, e)
  {
  }

  lemma PushDownAbsent(c: Ban, e: Expr)
    requires AbsentExpr(c, e) && PushDown(e).Some?
    ensures AbsentExpr(c, PushDown(e).value)
  {
    AbsentParts(c, e);
    AbsentParts(c, e.arg);
    match e.arg
    case Bin(op, l, r) =>
      AbsentParts(c, PushDown(e).value);
      AbsentParts(c, Un(Not, l));
      AbsentParts(c, Un(Not, r));
    case Un(_, y) =>
  }

  lemma BubbledAbsent(c: Ban, e: Expr)
    requires AbsentExpr(c, e)
    ensures AbsentExpr(c, Bubbled(e))
  {
    match BubbleUp(e)
    case Some(b) =>
      AbsentParts(c, e);
      AbsentParts(c, e.left);
      AbsentParts(c, e.right);
      AbsentParts(c, b);
      AbsentParts(c, b.arg);
    case None =>
  }

  lemma {:induction false} FoldAbsent(d: Decimals, c: Ban, e: Expr)
    requires AbsentExpr(c, e)
    ensures AbsentExpr(c, Fold(d, e)) && AbsentExpr(c, FoldBinary(d, e))
  {
    match e
    case Bin(op, l, r) =>
      AbsentParts(c, e);
      FoldAbsent(d, c, l);
      FoldAbsent(d, c, r);
      AbsentParts(c, Bin(op, Fold(d, l), Fold(d, r)));
      AbsentParts(c, Bin(op, FoldBinary(d, l), FoldBinary(d, r)));
    case Un(op, a) =>
      AbsentParts(c, e);
      FoldAbsent(d, c, a);
      AbsentParts(c, Un(op, Fold(d, a)));
      AbsentParts(c, Un(op, FoldBinary(d, a)));
    case _ =>
  }

  lemma {:induction false} InvertAbsent(c: Ban, e: Expr)
    requires AbsentExpr(c, e)
    ensures AbsentExpr(c, Invert(e))
    decreases Weight(e), e
  {
    if PushDown(e).Some? {
      PushDownLighter(e);
      PushDownAbsent(c, e);
      InvertAbsent(c, PushDown(e).value);
    } else {
      AbsentParts(c, e);
      match e
      case Bin(op, l, r) =>
        InvertAbsent(c, l);
        InvertAbsent(c, r);
        AbsentParts(c, Bin(op, Invert(l), Invert(r)));
        BubbledAbsent(c, Bin(op, Invert(l), Invert(r)));
      case Un(op, a) =>
        InvertAbsent(c, a);
        AbsentParts(c, Un(op, Invert(a)));
      case _ =>
    }
  }

  /** The optimizers of the compiler introduce no variables, and no writes. */
  lemma OptimizedAbsent(cfg: Config, c: Ban, e: Expr)
    requires cfg.Standard() && AbsentExpr(c, e)
    ensures AbsentExpr(c, cfg.binary(e)) && AbsentExpr(c, cfg.sexp(e)) && AbsentExpr(c, cfg.boolexp(e))
  {
    assert cfg.StandardOn(e);
    FoldAbsent(cfg.d, c, e);
    InvertAbsent(c, e);
  }

  // ---- lowering ----

  lemma {:induction false} LowerStmtClean(cfg: Config, c: Ban, s: Stmt, lp: Option<nat>)
    requires cfg.Standard() && CleanStmt(c, s)
    ensures CleanStmt(c, RewriteStmt(cfg.binary, LowerJump(s, lp)))
    decreases s, 1
  {
    match s
    case Assign(_, _, e) => OptimizedAbsent(cfg, c, e);
    case If(cond, t, e) =>
      OptimizedAbsent(cfg, c, cond);
      LowerStmtsClean(cfg, c, t, lp);
      LowerStmtsClean(cfg, c, e, lp);
    case _ =>
  }

  lemma {:induction false} LowerStmtsClean(cfg: Config, c: Ban, ss: seq<Stmt>, lp: Option<nat>)
    requires cfg.Standard() && Clean(c, ss)
    ensures Clean(c, LowerStmts(cfg, ss, lp))
    decreases ss, 0
  {
    if ss != [] {
      CleanTail(c, ss);
      LowerStmtClean(cfg, c, ss[0], lp);
      LowerStmtsClean(cfg, c, ss[1..], lp);
      LowerStmtsCons(cfg, ss, lp);
      CleanOne(c, RewriteStmt(cfg.binary, LowerJump(ss[0], lp)));
      CleanAppend(c, [RewriteStmt(cfg.binary, LowerJump(ss[0], lp))], LowerStmts(cfg, ss[1..], lp));
    }
  }

  lemma GotoIfClean(cfg: Config, c: Ban, cond: Expr, g: Gen)
    requires cfg.Standard() && AbsentExpr(c, cond)
    ensures Clean(c, [GotoIf(cfg.boolexp(Un(Not, cond)), g)])
  {
    OptimizedAbsent(cfg, c, Un(Not, cond));
    CleanGoto(c, Text(g));
    CleanOne(c, GotoIf(cfg.boolexp(Un(Not, cond)), g));
  }

  /** A branch that becomes a single line. */
  lemma InlineClean(cfg: Config, c: Ban, cond: Expr, body: seq<Line>, end: Option<Gen>)
    requires AbsentExpr(c, cond) && CleanLines(c, body)
    ensures Clean(c, InlineIf(cond, MergedBlock(cfg, body), end))
  {
    var merged := MergedBlock(cfg, body);
    if Merge(cfg.lay, body).Some? {
      MergeClean(c, cfg.lay, body);
    }
    var ss := InlineStmts(merged, end);
    if merged != [] && end.Some? {
      CleanGoto(c, Text(end.value));
      CleanAppend(c, merged[0].stmts, [GotoLabel(Text(end.value))]);
    }
    assert Clean(c, ss);
    CleanOne(c, If(cond, ss, []));
    DedupStmtsClean(c, [If(cond, ss, [])], false);
  }

  lemma {:induction false} TidyClean(c: Ban, ss: seq<Stmt>)
    requires Clean(c, ss)
    ensures Clean(c, TidyStmts(ss))
  {
    if ss != [] {
      CleanTail(c, ss);
      DedupStmtClean(c, ss[0]);
      TidyClean(c, ss[1..]);
      CleanOne(c, DedupStmt(ss[0]));
      CleanAppend(c, [DedupStmt(ss[0])], TidyStmts(ss[1..]));
    }
  }

  lemma AttemptedClean(cfg: Config, c: Ban, body: seq<Line>)
    requires CleanLines(c, body)
    ensures CleanLines(c, Attempted(cfg, body))
  {
    forall i | 0 <= i < |body| ensures Clean(c, TidyLine(body[i]).stmts) {
      TidyClean(c, body[i].stmts);
    }
  }

  lemma BranchClean(cfg: Config, c: Ban, n: nat, i: nat, cond: Expr, body: seq<Line>, end: Option<Gen>)
    requires cfg.Standard() && AbsentExpr(c, cond) && CleanLines(c, body)
    ensures CleanLines(c, BranchCode(cfg, n, i, cond, body, end))
  {
    var skip := IfSkip(n, i);
    InlineClean(cfg, c, cond, body, end);
    GotoIfClean(cfg, c, cond, skip);
    var head := Bare([GotoIf(cfg.boolexp(Un(Not, cond)), skip)]);
    var jump := if end.Some? then [Bare([GotoLabel(Text(end.value))])] else [];
    if end.Some? {
      CleanGoto(c, Text(end.value));
    }
    var block := Attempted(cfg, body);
    AttemptedClean(cfg, c, body);
    LinesAppend(c, [head], block);
    LinesAppend(c, [head] + block, jump);
    LinesAppend(c, [head] + block + jump, [Mark(skip)]);
  }

  lemma {:induction false} BranchesClean(cfg: Config, c: Ban, n: nat, i: nat, conds: seq<Expr>,
                                         bodies: seq<seq<Line>>, hasElse: bool)
    requires cfg.Standard() && |conds| == |bodies| && i <= |conds|
    requires forall k :: 0 <= k < |bodies| ==> CleanLines(c, bodies[k]) && AbsentExpr(c, conds[k])
    ensures CleanLines(c, BranchesCode(cfg, n, i, conds, bodies, hasElse))
    decreases |conds| - i
  {
    if i < |conds| {
      BranchClean(cfg, c, n, i, conds[i], bodies[i], EndOf(n, i, |conds|, hasElse));
      BranchesClean(cfg, c, n, i + 1, conds, bodies, hasElse);
      LinesAppend(c, BranchCode(cfg, n, i, conds[i], bodies[i], EndOf(n, i, |conds|, hasElse)),
                  BranchesCode(cfg, n, i + 1, conds, bodies, hasElse));
    }
  }

  lemma IfClean(cfg: Config, c: Ban, n: nat, conds: seq<Expr>, bodies: seq<seq<Line>>, hasElse: bool,
                els: seq<Line>)
    requires cfg.Standard() && |conds| == |bodies| && CleanLines(c, els)
    requires forall k :: 0 <= k < |bodies| ==> CleanLines(c, bodies[k]) && AbsentExpr(c, conds[k])
    ensures CleanLines(c, IfCode(cfg, n, conds, bodies, hasElse, els))
  {
    BranchesClean(cfg, c, n, 0, conds, bodies, hasElse);
    LinesAppend(c, BranchesCode(cfg, n, 0, conds, bodies, hasElse), els);
    LinesAppend(c, BranchesCode(cfg, n, 0, conds, bodies, hasElse) + els, [Mark(IfEnd(n))]);
  }

  lemma WhileClean(cfg: Config, c: Ban, n: nat, cond: Expr, body: seq<Line>)
    requires cfg.Standard() && AbsentExpr(c, cond) && CleanLines(c, body)
    ensures CleanLines(c, WhileCode(cfg, n, cond, body))
  {
    OptimizedAbsent(cfg, c, cond);
    OptimizedAbsent(cfg, c, cfg.binary(cond));
    GotoIfClean(cfg, c, LoopCond(cfg, cond), LoopEnd(n));
    CleanGoto(c, Text(LoopStart(n)));
    var tail := [Bare([GotoLabel(Text(LoopStart(n)))]), Mark(LoopEnd(n))];
    OneLine(c, LoopHead(cfg, n, cond));
    LinesAppend(c, [LoopHead(cfg, n, cond)], body);
    LinesAppend(c, [LoopHead(cfg, n, cond)] + body, tail);
  }

  lemma {:induction false} ListClean(cfg: Config, v: Ban, es: seq<Element>, c: Ctr, lp: Option<nat>)
    requires cfg.Standard() && CleanList(v, es)
    ensures CleanLines(v, LowerList(cfg, es, c, lp).code)
    decreases es, 0
  {
    if es != [] {
      var a := LowerElem(cfg, es[0], c, lp);
      ElemClean(cfg, v, es[0], c, lp);
      ListClean(cfg, v, es[1..], a.ctr, lp);
      LinesAppend(v, a.code, LowerList(cfg, es[1..], a.ctr, lp).code);
    }
  }

  lemma {:induction false} ElemClean(cfg: Config, v: Ban, e: Element, c: Ctr, lp: Option<nat>)
    requires cfg.Standard() && CleanElem(v, e)
    ensures CleanLines(v, LowerElem(cfg, e, c, lp).code)
    decreases e, 2
  {
    match e
    case Plain(line) => LowerStmtsClean(cfg, v, line.stmts, lp);
    case MultiIf(branches, els) =>
      var (bodies, c1) := LowerBodies(cfg, branches, c, lp);
      var r := LowerElse(cfg, els, c1, lp);
      BodiesClean(cfg, v, branches, c, lp);
      if els.ElseBlock? {
        ListClean(cfg, v, els.es, c1, lp);
      }
      IfClean(cfg, v, r.ctr.ifs, Conds(cfg, branches), bodies, els.ElseBlock?, r.code);
    case While(cond, body) =>
      var n := c.loops + 1;
      ListClean(cfg, v, body, c.(loops := n), Some(n));
      WhileClean(cfg, v, n, cond, LowerList(cfg, body, c.(loops := n), Some(n)).code);
  }

  lemma {:induction false} BodiesClean(cfg: Config, v: Ban, branches: seq<Branch>, c: Ctr, lp: Option<nat>)
    requires cfg.Standard() && CleanBranches(v, branches)
    ensures forall k :: 0 <= k < |branches| ==>
              CleanLines(v, LowerBodies(cfg, branches, c, lp).0[k]) && AbsentExpr(v, Conds(cfg, branches)[k])
    decreases branches, 1
  {
    if branches != [] {
      var a := LowerList(cfg, branches[0].body, c, lp);
      ListClean(cfg, v, branches[0].body, c, lp);
      OptimizedAbsent(cfg, v, branches[0].cond);
      BodiesClean(cfg, v, branches[1..], a.ctr, lp);
      assert forall k :: 0 < k < |branches| ==> Conds(cfg, branches)[k] == Conds(cfg, branches[1..])[k - 1];
    }
  }
}
