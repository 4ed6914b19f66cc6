/** Where the compiler does not keep its promise, and exactly when it does. */
module Limits {
  import opened Ast
  import opened Operations
  import opened Semantics
  import opened Behaviour
  import opened Machine
  import opened Nolol
  import opened Labels
  import opened Lexing
  import opened Printing
  import opened Rewriting
  import opened Merging
  import opened Packing
  import opened Widths
  import opened Gotos
  import opened Numbering
  import opened Lowering
  import opened LabelCounting
  import opened Placing
  import opened Labelling
  import opened Compiler
  import opened Outcomes

  // ---- blocks that are empty, or count as empty ----

  /** The single line of a branch leads to the end of the if, as it must when the block is done, if and only if the
      block has lines and merging them does not fail. Otherwise control falls through to the branches behind it. */
  lemma InlineLeadsToEnd(cfg: Config, cond: Expr, body: seq<Line>, end: Gen, st: State)
    requires InlineBranch(cfg, cond, body, Some(end)).Some?
    requires EvalCond(cfg.d, cond, st).True? && RunStmts(cfg.d, Concat(body), EvalCond(cfg.d, cond, st).st).sig == Next
    ensures RunStmts(cfg.d, InlineBranch(cfg, cond, body, Some(end)).value.stmts, st).sig == Jump(Labels.Text(end)) <==>
            body != [] && Merge(cfg.lay, body).Some?
  {
    var t := EvalCond(cfg.d, cond, st);
    var merged := MergedBlock(cfg, body);
    var ss := InlineStmts(merged, Some(end));
    DedupRun(cfg.d, [If(cond, ss, [])], st);
    RunIf(cfg.d, cond, ss, st);
    if Merge(cfg.lay, body).Some? {
      MergedStmts(cfg, body);
      if merged != [] {
        RunAppend(cfg.d, Concat(body), [GotoLabel(Labels.Text(end))], t.st);
        RunOne(cfg.d, GotoLabel(Labels.Text(end)), RunStmts(cfg.d, Concat(body), t.st).st);
      }
    }
  }

  lemma EmptyInlineIf(cond: Expr, end: Option<Gen>)
    ensures InlineIf(cond, [], end) == [If(cond, [], [])]
  {
    var s := If(cond, [], []);
    assert [s][1..] == [];
    assert DedupStmts([], false) == Deduped([], false);
    assert DedupStmt(s) == s;
    assert DedupStmts([s], false).stmts == [s] + [];
  }

  /** A block whose first line is too long, but not its last one, vanishes: the branch does nothing. */
  lemma LongBlockVanishes(cfg: Config, cond: Expr, body: seq<Line>, end: Option<Gen>, st: State)
    requires |body| > 1 && !body[0].eol && cfg.lay.len(body[0].stmts) > cfg.lay.max
    requires cfg.lay.len([If(cond, [], [])]) <= cfg.lay.max
    ensures Merge(cfg.lay, body).None?
    ensures InlineBranch(cfg, cond, body, end) == Some(Bare([If(cond, [], [])]))
    ensures EvalCond(cfg.d, cond, st).True? ==>
            RunStmts(cfg.d, [If(cond, [], [])], st) == Result(Next, EvalCond(cfg.d, cond, st).st)
  {
    assert GroupLast(cfg.lay, body, 0).None?;
    EmptyInlineIf(cond, end);
    RunIf(cfg.d, cond, [], st);
  }

  // ---- programs that are compiled wrongly ----

  /** What goes wrong in the lowering is not repaired by the later passes. */
  lemma WrongCode(env: Env, cfg: Config, prog: seq<Element>, st: State)
    requires cfg.Standard() && cfg.d.ReadsNaturals() && env.d == cfg.d && !env.resume && NumberFree(prog)
    requires Compile(cfg, prog).Compiled? && EndReachable(Dedup(Packed(cfg, prog).value))
    requires !EquivalentUnlessError(Source(env, prog, st), Flat(env, LowerProgram(cfg, prog), st))
    ensures !EquivalentUnlessError(Source(env, prog, st), Vm(env, Compile(cfg, prog).code, st))
  {
    var flat, lines, code := LowerProgram(cfg, prog), Dedup(Packed(cfg, prog).value), Compile(cfg, prog).code;
    PackedEquivalent(env, cfg, prog, st);
    PackedClean(cfg, Nothing, prog);
    RangeIffEndReachable(lines);
    NumberingEquivalent(env, lines, st);
    EquivalentTransitive(Flat(env, flat, st), Flat(env, lines, st), Vm(env, code, st));
    if EquivalentUnlessError(Source(env, prog, st), Vm(env, code, st)) {
      EquivalentUnlessErrorThen(Source(env, prog, st), Vm(env, code, st), Flat(env, flat, st));
    }
  }

  lemma {:induction false} NoGotoStmt(p: seq<Line>, s: Stmt, s': Stmt)
    requires ChainStmt(p, s, s') && UsedInStmt(s) == {}
    ensures s' == s
  {
    if s.If? {
      NoGotoStmts(p, s.thn, s'.thn);
      NoGotoStmts(p, s.els, s'.els);
    }
  }

  lemma {:induction false} NoGotoStmts(p: seq<Line>, ss: seq<Stmt>, ss': seq<Stmt>)
    requires ChainStmts(p, ss, ss') && UsedIn(ss) == {}
    ensures ss' == ss
  {
    if ss != [] {
      assert ChainStmt(p, ss[0], ss'[0]);
      NoGotoStmt(p, ss[0], ss'[0]);
      forall k | 0 <= k < |ss[1..]| ensures ChainStmt(p, ss[1..][k], ss'[1..][k]) {
        assert ChainStmt(p, ss[k + 1], ss'[k + 1]);
      }
      NoGotoStmts(p, ss[1..], ss'[1..]);
      assert ss == [ss[0]] + ss[1..] && ss' == [ss'[0]] + ss'[1..];
    }
  }

  /** Without gotos there are no chains. */
  lemma NoGotos(p: seq<Line>)
    requires forall i :: 0 <= i < |p| ==> UsedIn(p[i].stmts) == {}
    ensures ResolveChains(p) == p && Used(p) == {}
  {
    ResolveChainsChain(p);
    var q := ResolveChains(p);
    forall i | 0 <= i < |p| ensures q[i] == p[i] {
      assert ChainLine(p, p[i], q[i]);
      NoGotoStmts(p, p[i].stmts, q[i].stmts);
    }
    UsedWithin(p, {});
  }

  /** Few short pieces make a short text. */
  lemma {:induction false} ShortText(ps: seq<Piece>, last: bool)
    requires forall i :: 0 <= i < |ps| && ps[i].T? ==> |TokenText(ps[i].token)| <= 8
    ensures |Render(ps, last)| <= 8 * |ps|
  {
    if ps != [] {
      ShortText(ps[1..], ps[0].Space?);
    }
  }

  // ---- an empty block ----

  function SetLine(x: string, one: string): Line {
    Line("", false, false, [Assign(x, Set, Num(one))])
  }

  /** `if <one> then else x = <one> end` */
  function EmptyBlock(one: string): seq<Element> {
    [MultiIf([Branch(Num(one), [])], ElseBlock([Element.Plain(SetLine("x", one))]))]
  }

  lemma {:induction false} HaltStays(env: Env, prog: seq<Element>, n: nat, st: State)
    ensures SSteps(env, prog, n, SHalt(st)) == SHalt(st)
    decreases n
  {
    if n > 0 {
      HaltStays(env, prog, n - 1, st);
    }
  }

  /** The program with the empty block ends without writing anything. */
  lemma EmptyBlockSource(env: Env, one: string, st: State, n: nat)
    requires env.d.parse(one) == Some(1.0) && !env.forever
    ensures var o := Source(env, EmptyBlock(one), st)(n); o.st == st && !o.Crashed?
  {
    var prog := EmptyBlock(one);
    var c0 := Go(prog, Stop, st);
    assert EvalCond(env.d, Num(one), st) == True(st);
    assert Choose(env.d, prog[0].branches, 0, st) == Chosen(0, st);
    assert prog[1..] == [];
    assert Settle([], Then([], Stop)) == Settle([], Stop) == Point([], Stop);
    var c1 := SRun([], Stop, st);
    assert SStep(env, prog, c0) == c1;
    assert SStep(env, prog, c1) == SHalt(st);
    if n == 1 {
      assert SSteps(env, prog, 1, c0) == SSteps(env, prog, 0, c1);
    } else if n > 1 {
      assert SSteps(env, prog, n, c0) == SSteps(env, prog, n - 1, c1) == SSteps(env, prog, n - 2, SHalt(st));
      HaltStays(env, prog, n - 2, st);
    }
  }

  lemma AssignLowered(cfg: Config, x: string, one: string)
    requires cfg.Standard()
    ensures var ss := [Assign(x, Set, Num(one))]; LowerStmts(cfg, ss, None) == ss
  {
    var s := Assign(x, Set, Num(one));
    assert cfg.StandardOn(Num(one));
    assert [s][1..] == [];
    assert LowerJumps([s], None) == [s] + [];
    assert RewriteStmts(cfg.binary, [s]) == [RewriteStmt(cfg.binary, s)] + [];
  }

  /** The code of an if whose only branch is inlined without its block. */
  lemma OneBranchCode(cfg: Config, one: string, body: seq<Line>, hasElse: bool, els: seq<Line>)
    requires cfg.lay.len([If(Num(one), [], [])]) <= cfg.lay.max && MergedBlock(cfg, body) == []
    ensures IfCode(cfg, 0, [Num(one)], [body], hasElse, els) == [Bare([If(Num(one), [], [])])] + els + [Mark(IfEnd(0))]
  {
    var end := EndOf(0, 0, 1, hasElse);
    var head := Bare([If(Num(one), [], [])]);
    EmptyInlineIf(Num(one), end);
    assert BranchCode(cfg, 0, 0, Num(one), body, end) == [head];
    assert BranchesCode(cfg, 0, 1, [Num(one)], [body], hasElse) == [];
    assert BranchesCode(cfg, 0, 0, [Num(one)], [body], hasElse) == [head] + [];
  }

  lemma EmptyBlockCode(cfg: Config, one: string)
    requires cfg.Standard() && cfg.lay.len([If(Num(one), [], [])]) <= cfg.lay.max
    ensures LowerProgram(cfg, EmptyBlock(one)) == [Bare([If(Num(one), [], [])]), SetLine("x", one), Mark(IfEnd(0))]
  {
    var e := EmptyBlock(one)[0];
    var line := SetLine("x", one);
    assert cfg.StandardOn(Num(one));
    AssignLowered(cfg, "x", one);
    var c := Ctr(0, 0);
    assert LowerList(cfg, [], c, None) == Low([], c);
    assert e.els.es[1..] == [] && LowerElem(cfg, e.els.es[0], c, None) == Low([line], c);
    assert LowerList(cfg, e.els.es, c, None) == Low([line] + [], c);
    assert [line] + [] == [line];
    assert LowerElse(cfg, e.els, c, None) == Low([line], c);
    assert e.branches[1..] == [] && LowerBodies(cfg, [], c, None) == ([], c);
    assert e.branches[0].body == [];
    var none: seq<Line> := [];
    var bodies: seq<seq<Line>> := [none];
    assert LowerBodies(cfg, e.branches, c, None) == (bodies + [], c);
    assert bodies + [] == bodies && Conds(cfg, e.branches) == [Num(one)];
    OneBranchCode(cfg, one, [], true, [line]);
    var a := LowerElem(cfg, e, c, None);
    assert EmptyBlock(one)[1..] == [] && LowerList(cfg, [], a.ctr, None).code == [];
    assert LowerProgram(cfg, EmptyBlock(one)) == a.code + LowerList(cfg, EmptyBlock(one)[1..], a.ctr, None).code;
    assert a.code + [] == a.code;
    assert a.code == IfCode(cfg, 0, [Num(one)], bodies, true, [line]);
    assert a.code == [Bare([If(Num(one), [], [])])] + [line] + [Mark(IfEnd(0))];
  }

  /** A program with an empty block in front of an else is not lowered correctly: the else block runs as well. */
  lemma EmptyBlockFails(env: Env, cfg: Config, one: string, st: State)
    requires cfg.Standard() && cfg.lay.len([If(Num(one), [], [])]) <= cfg.lay.max
    requires env.d.parse(one) == Some(1.0) && !env.forever
    ensures !EquivalentUnlessError(Source(env, EmptyBlock(one), st), Flat(env, LowerProgram(cfg, EmptyBlock(one)), st))
  {
    var f := LowerProgram(cfg, EmptyBlock(one));
    var a, b := Source(env, EmptyBlock(one), st), Flat(env, f, st);
    EmptyBlockCode(cfg, one);
    RunIf(env.d, Num(one), [], st);
    RunOne(env.d, Assign("x", Set, Num(one)), st);
    var st' := Put(st, "x", N(1.0));
    assert Step(env, f, Run(0, st)) == Run(1, st);
    assert Step(env, f, Run(1, st)) == Run(2, st');
    assert Steps(env, f, 2, Run(0, st)) == Steps(env, f, 1, Run(1, st)) == Steps(env, f, 0, Run(2, st'));
    assert b(2) == Going(st') && |st'.trace| == |st.trace| + 1;
    forall n: nat ensures !Covers(b(2), a(n)) && !a(n).Crashed? {
      EmptyBlockSource(env, one, st, n);
    }
    assert ErrorFree(a) && !CoveredBy(b(2), a);
  }

  // ---- the examples are accepted ----

  lemma ShortIf(one: string)
    requires |one| <= 8 && !Negative(one)
    ensures PrintedLen([If(Num(one), [], [])]) <= 65
  {
    var cond := If(Num(one), [], []);
    assert Pieces(Compact, Num(one)) == [T(Number(one))];
    assert StmtPieces(cond) == [T(Keyword("if")), Space, T(Number(one)), Space, T(Keyword("then")), Space, Space,
                                T(Keyword("end"))];
    assert ListPieces([cond]) == StmtPieces(cond);
    ShortText(StmtPieces(cond), false);
  }

  lemma ShortAssign(x: string, one: string)
    requires |x| <= 8 && |one| <= 8 && !Negative(one)
    ensures PrintedLen([Assign(x, Set, Num(one))]) <= 65
  {
    var s := Assign(x, Set, Num(one));
    assert Pieces(Compact, Num(one)) == [T(Number(one))];
    assert StmtPieces(s) == [T(Id(x)), T(Symbol("=")), T(Number(one))];
    assert ListPieces([s]) == StmtPieces(s);
    ShortText(StmtPieces(s), false);
  }

  /** A program of short lines without gotos is accepted. */
  lemma AcceptedWithoutGotos(cfg: Config, prog: seq<Element>, f: seq<Line>)
    requires f == LowerProgram(cfg, prog) && |f| < LAST_LINE && Placed(prog, false) && Sensible(cfg.lay)
    requires forall i :: 0 <= i < |f| ==> UsedIn(f[i].stmts) == {} && cfg.lay.len(f[i].stmts) <= cfg.lay.max
    ensures Compile(cfg, prog).Compiled? && EndReachable(Dedup(Packed(cfg, prog).value))
  {
    NoGotos(f);
    Accepted(cfg, prog);
  }

  lemma OnlyIf(cond: Expr)
    ensures UsedIn([If(cond, [], [])]) == {}
  {
    var s := If(cond, [], []);
    assert UsedInStmt(s) == {} && [s][1..] == [];
  }

  lemma AssignPlaced(x: string, one: string)
    ensures var ss := [Assign(x, Set, Num(one))]; JumpsPlaced(ss, false) && Labelled(ss) && UsedIn(ss) == {}
  {
    var s := Assign(x, Set, Num(one));
    assert [s][1..] == [] && JumpsPlaced([], false) && UsedInStmt(s) == {};
  }

  lemma EmptyBlockForm(one: string)
    ensures Placed(EmptyBlock(one), false) && NumberFree(EmptyBlock(one))
  {
    var e := EmptyBlock(one)[0];
    assert EmptyBlock(one)[1..] == [] && e.branches[1..] == [] && e.els.es[1..] == [];
    AssignPlaced("x", one);
    assert Placed([], false) && PlacedElem(e.els.es[0], false);
    assert Placed(e.els.es, false) && CleanList(Nothing, e.els.es);
    assert PlacedBranches(e.branches, false) && CleanBranches(Nothing, e.branches);
  }

  lemma EmptyBlockAccepted(cfg: Config, one: string, f: seq<Line>)
    requires cfg.Standard() && Sensible(cfg.lay) && f == LowerProgram(cfg, EmptyBlock(one))
    requires cfg.lay.len([If(Num(one), [], [])]) <= cfg.lay.max
    requires cfg.lay.len([Assign("x", Set, Num(one))]) <= cfg.lay.max && cfg.lay.len([]) <= cfg.lay.max
    requires f == [Bare([If(Num(one), [], [])]), SetLine("x", one), Mark(IfEnd(0))]
    ensures Compile(cfg, EmptyBlock(one)).Compiled? && EndReachable(Dedup(Packed(cfg, EmptyBlock(one)).value))
  {
    EmptyBlockForm(one);
    OnlyIf(Num(one));
    AssignPlaced("x", one);
    AcceptedWithoutGotos(cfg, EmptyBlock(one), f);
  }

  /** The compiler accepts the program with the empty block, and the YOLOL code does not do what the program says. */
  lemma EmptyBlockMiscompiled(env: Env, tracksTime: bool, one: string, st: State)
    requires env.d.ReadsNaturals() && !env.resume && !env.forever
    requires env.d.parse(one) == Some(1.0) && |one| <= 8 && !Negative(one)
    ensures var r := Compile(NewConfig(env.d, StandardLayout(tracksTime)), EmptyBlock(one));
            r.Compiled? && !EquivalentUnlessError(Source(env, EmptyBlock(one), st), Vm(env, r.code, st))
  {
    var cfg := NewConfig(env.d, StandardLayout(tracksTime));
    ShortIf(one);
    ShortAssign("x", one);
    StandardIsSensible(tracksTime);
    EmptyBlockCode(cfg, one);
    EmptyBlockAccepted(cfg, one, LowerProgram(cfg, EmptyBlock(one)));
    EmptyBlockForm(one);
    EmptyBlockFails(env, cfg, one, st);
    WrongCode(env, cfg, EmptyBlock(one), st);
  }

  // ---- a block whose first line is too long ----

  function LongBody(name: string, one: string): seq<Element> {
    [Element.Plain(SetLine(name, one)), Element.Plain(SetLine("x", one))]
  }

  /** `if <one> then`, an assignment to a long name, `x = <one>`, `end` */
  function LongBlock(name: string, one: string): seq<Element> {
    [MultiIf([Branch(Num(one), LongBody(name, one))], NoElse)]
  }

  function LongLines(name: string, one: string): seq<Line> {
    [SetLine(name, one), SetLine("x", one)]
  }

  lemma LongBodyCode(cfg: Config, name: string, one: string, c: Ctr)
    requires cfg.Standard()
    ensures LowerList(cfg, LongBody(name, one), c, None) == Low(LongLines(name, one), c)
  {
    var es, body := LongBody(name, one), LongLines(name, one);
    AssignLowered(cfg, name, one);
    AssignLowered(cfg, "x", one);
    assert es[1..][0] == es[1] && es[1..][1..] == [];
    assert LowerList(cfg, [], c, None) == Low([], c);
    assert LowerList(cfg, es[1..], c, None) == Low([body[1]] + [], c);
    assert [body[0]] + ([body[1]] + []) == body;
  }

  lemma LongBodyUnmerged(cfg: Config, name: string, one: string)
    requires cfg.lay.len([Assign(name, Set, Num(one))]) > cfg.lay.max
    ensures MergedBlock(cfg, LongLines(name, one)) == []
  {
    assert GroupLast(cfg.lay, LongLines(name, one), 0).None?;
  }

  /** The code of an if with a single branch and no else. */
  lemma LoneBranchCode(cfg: Config, one: string, es: seq<Element>, body: seq<Line>)
    requires cfg.Standard() && LowerList(cfg, es, Ctr(0, 0), None) == Low(body, Ctr(0, 0))
    ensures LowerElem(cfg, MultiIf([Branch(Num(one), es)], NoElse), Ctr(0, 0), None).code ==
            IfCode(cfg, 0, [Num(one)], [body], false, [])
  {
    var c := Ctr(0, 0);
    var branches := [Branch(Num(one), es)];
    assert cfg.StandardOn(Num(one));
    assert branches[1..] == [] && LowerBodies(cfg, [], c, None) == ([], c);
    assert LowerBodies(cfg, branches, c, None) == ([body] + [], c);
    assert [body] + [] == [body] && Conds(cfg, branches) == [Num(one)];
    assert LowerElse(cfg, NoElse, c, None) == Low([], c);
  }

  lemma OneElementCode(cfg: Config, e: Element)
    ensures LowerProgram(cfg, [e]) == LowerElem(cfg, e, Ctr(0, 0), None).code
  {
    var a := LowerElem(cfg, e, Ctr(0, 0), None);
    assert [e][1..] == [] && LowerList(cfg, [], a.ctr, None).code == [];
    assert LowerProgram(cfg, [e]) == a.code + LowerList(cfg, [e][1..], a.ctr, None).code;
    assert a.code + [] == a.code;
  }

  lemma LongBlockCode(cfg: Config, name: string, one: string)
    requires cfg.Standard() && cfg.lay.len([If(Num(one), [], [])]) <= cfg.lay.max
    requires cfg.lay.len([Assign(name, Set, Num(one))]) > cfg.lay.max
    ensures LowerProgram(cfg, LongBlock(name, one)) == [Bare([If(Num(one), [], [])]), Mark(IfEnd(0))]
  {
    var body := LongLines(name, one);
    LongBodyCode(cfg, name, one, Ctr(0, 0));
    LongBodyUnmerged(cfg, name, one);
    LoneBranchCode(cfg, one, LongBody(name, one), body);
    OneElementCode(cfg, LongBlock(name, one)[0]);
    OneBranchCode(cfg, one, body, false, []);
    var head, end := Bare([If(Num(one), [], [])]), Mark(IfEnd(0));
    assert [head] + [] + [end] == [head, end];
  }

  /** The program writes twice, and ends. */
  lemma LongBlockSource(env: Env, name: string, one: string, st: State, n: nat)
    requires env.d.parse(one) == Some(1.0) && !env.forever
    ensures var a := Source(env, LongBlock(name, one), st);
            !a(n).Crashed? && a(4) == Done(Put(Put(st, name, N(1.0)), "x", N(1.0)))
  {
    var prog, body := LongBlock(name, one), LongBody(name, one);
    var k := Then([], Stop);
    var st1 := Put(st, name, N(1.0));
    var st2 := Put(st1, "x", N(1.0));
    assert EvalCond(env.d, Num(one), st) == True(st);
    assert Choose(env.d, prog[0].branches, 0, st) == Chosen(0, st);
    assert prog[1..] == [] && body[1..] == [body[1]] && [body[1]][1..] == [];
    assert Settle([], k) == Settle([], Stop) == Point([], Stop);
    RunOne(env.d, Assign(name, Set, Num(one)), st);
    RunOne(env.d, Assign("x", Set, Num(one)), st1);
    var c0, c1, c2, c3 := Go(prog, Stop, st), SRun(body, k, st), SRun([body[1]], k, st1), SRun([], Stop, st2);
    assert SStep(env, prog, c0) == c1 && SStep(env, prog, c1) == c2;
    assert SStep(env, prog, c2) == c3 && SStep(env, prog, c3) == SHalt(st2);
    FourSteps(env, prog, c0, c1, c2, c3, SHalt(st2), n);
    FourSteps(env, prog, c0, c1, c2, c3, SHalt(st2), 4);
    if n >= 4 {
      HaltStays(env, prog, n - 4, st2);
    }
    HaltStays(env, prog, 0, st2);
  }

  lemma FourSteps(env: Env, prog: seq<Element>, c0: SConf, c1: SConf, c2: SConf, c3: SConf, c4: SConf, n: nat)
    requires SStep(env, prog, c0) == c1 && SStep(env, prog, c1) == c2
    requires SStep(env, prog, c2) == c3 && SStep(env, prog, c3) == c4
    ensures SSteps(env, prog, n, c0) == if n == 0 then c0 else if n == 1 then c1 else if n == 2 then c2
                                        else if n == 3 then c3 else SSteps(env, prog, n - 4, c4)
  {
    if n > 0 {
      assert SSteps(env, prog, n, c0) == SSteps(env, prog, n - 1, c1);
      if n > 1 {
        assert SSteps(env, prog, n - 1, c1) == SSteps(env, prog, n - 2, c2);
        if n > 2 {
          assert SSteps(env, prog, n - 2, c2) == SSteps(env, prog, n - 3, c3);
        }
      }
    }
  }

  /** Code that only tests conditions never writes. */
  ghost predicate Idle(f: seq<Line>, st: State, c: Conf) {
    !c.Crash? && c.st == st
  }

  lemma {:induction false} LongBlockIdle(env: Env, one: string, st: State, c: Conf, n: nat)
    requires env.d.parse(one) == Some(1.0)
    requires Idle([Bare([If(Num(one), [], [])]), Mark(IfEnd(0))], st, c)
    ensures Idle([Bare([If(Num(one), [], [])]), Mark(IfEnd(0))], st,
                 Steps(env, [Bare([If(Num(one), [], [])]), Mark(IfEnd(0))], n, c))
    decreases n
  {
    var f := [Bare([If(Num(one), [], [])]), Mark(IfEnd(0))];
    if n > 0 {
      RunIf(env.d, Num(one), [], st);
      assert RunStmts(env.d, [], st) == Result(Next, st);
      LongBlockIdle(env, one, st, Step(env, f, c), n - 1);
    }
  }

  /** A block whose first line is too long is not lowered correctly: it vanishes without an error. */
  lemma LongBlockFails(env: Env, cfg: Config, name: string, one: string, st: State)
    requires cfg.Standard() && cfg.lay.len([If(Num(one), [], [])]) <= cfg.lay.max
    requires cfg.lay.len([Assign(name, Set, Num(one))]) > cfg.lay.max
    requires env.d.parse(one) == Some(1.0) && !env.forever
    ensures !EquivalentUnlessError(Source(env, LongBlock(name, one), st),
                                   Flat(env, LowerProgram(cfg, LongBlock(name, one)), st))
  {
    var f := LowerProgram(cfg, LongBlock(name, one));
    var a, b := Source(env, LongBlock(name, one), st), Flat(env, f, st);
    LongBlockCode(cfg, name, one);
    forall n: nat ensures !a(n).Crashed? {
      LongBlockSource(env, name, one, st, n);
    }
    LongBlockSource(env, name, one, st, 4);
    forall m: nat ensures !Covers(a(4), b(m)) {
      LongBlockIdle(env, one, st, Run(0, st), m);
      assert b(m).st == st && a(4).st.trace != st.trace;
    }
    assert ErrorFree(a) && !CoveredBy(a(4), b);
  }

  lemma LongAssign(name: string, one: string)
    requires |name| >= 70
    ensures PrintedLen([Assign(name, Set, Num(one))]) > 71
  {
    var s := Assign(name, Set, Num(one));
    assert ListPieces([s]) == StmtPieces(s) && StmtPieces(s)[0] == T(Id(name));
    assert StmtPieces(s)[1..][0] == T(Symbol("="));
    assert Render(StmtPieces(s)[1..], false) == "=" + Render(StmtPieces(s)[1..][1..], false);
    assert Render(StmtPieces(s), false) == name + Render(StmtPieces(s)[1..], false);
  }

  lemma LongBlockForm(name: string, one: string)
    ensures Placed(LongBlock(name, one), false) && NumberFree(LongBlock(name, one))
  {
    var e, es := LongBlock(name, one)[0], LongBody(name, one);
    assert LongBlock(name, one)[1..] == [] && e.branches[1..] == [];
    assert es[1..][0] == es[1] && es[1..][1..] == [];
    AssignPlaced(name, one);
    AssignPlaced("x", one);
    assert Placed([], false) && PlacedElem(es[0], false) && PlacedElem(es[1], false);
    assert Placed(es[1..], false) && CleanList(Nothing, es[1..]);
    assert Placed(es, false) && CleanList(Nothing, es);
    assert PlacedBranches(e.branches, false) && CleanBranches(Nothing, e.branches);
  }

  /** The compiler accepts the program, although its block has a line that is too long, and drops the block. */
  lemma LongBlockMiscompiled(env: Env, tracksTime: bool, name: string, one: string, st: State)
    requires env.d.ReadsNaturals() && !env.resume && !env.forever
    requires env.d.parse(one) == Some(1.0) && |one| <= 8 && !Negative(one) && |name| >= 70
    ensures var r := Compile(NewConfig(env.d, StandardLayout(tracksTime)), LongBlock(name, one));
            r.Compiled? && !EquivalentUnlessError(Source(env, LongBlock(name, one), st), Vm(env, r.code, st))
  {
    var cfg := NewConfig(env.d, StandardLayout(tracksTime));
    ShortIf(one);
    LongAssign(name, one);
    StandardIsSensible(tracksTime);
    LongBlockCode(cfg, name, one);
    LongBlockForm(name, one);
    OnlyIf(Num(one));
    AcceptedWithoutGotos(cfg, LongBlock(name, one), [Bare([If(Num(one), [], [])]), Mark(IfEnd(0))]);
    LongBlockFails(env, cfg, name, one, st);
    WrongCode(env, cfg, LongBlock(name, one), st);
  }

  // ---- a label of the user that looks like one of the compiler ----

  function GotoLine(l: LabelName): Line {
    Line("", false, false, [GotoLabel(l)])
  }

  const WHILE1: LabelName := Labels.Text(LoopStart(1))

  /** `while <one> do goto x end`, `while1> y = <one>`, `x> z = <one> goto while1` */
  function Clash(one: string): seq<Element> {
    [While(Num(one), [Element.Plain(GotoLine("x"))]),
     Element.Plain(Line(WHILE1, false, false, [Assign("y", Set, Num(one))])),
     Element.Plain(Line("x", false, false, [Assign("z", Set, Num(one)), GotoLabel(WHILE1)]))]
  }

  /** Its code, with the target of the third line and that of the last one. */
  function ClashCode(one: string, second: LabelName, last: LabelName): seq<Line> {
    [Mark(LoopStart(1)), GotoLine("x"), GotoLine(second), Mark(LoopEnd(1)),
     Line(WHILE1, false, false, [Assign("y", Set, Num(one))]),
     Line("x", false, false, [Assign("z", Set, Num(one)), GotoLabel(last)])]
  }

  lemma ClashLabels()
    ensures WHILE1 != "x" && WHILE1 != "" && Labels.Text(LoopEnd(1)) != "x" && Labels.Text(LoopEnd(1)) != WHILE1
  {
    assert WHILE1[0] == 'w' && Labels.Text(LoopEnd(1))[0] == 'e';
  }

  lemma GotoLowered(cfg: Config, l: LabelName, lp: Option<nat>)
    ensures LowerStmts(cfg, [GotoLabel(l)], lp) == [GotoLabel(l)]
  {
    var s := GotoLabel(l);
    assert [s][1..] == [];
    assert LowerJumps([s], lp) == [s] + [];
    assert RewriteStmts(cfg.binary, [s]) == [s] + [];
  }

  lemma SetGotoLowered(cfg: Config, one: string, l: LabelName)
    requires cfg.Standard()
    ensures var ss := [Assign("z", Set, Num(one)), GotoLabel(l)]; LowerStmts(cfg, ss, None) == ss
  {
    var ss := [Assign("z", Set, Num(one)), GotoLabel(l)];
    assert cfg.StandardOn(Num(one));
    GotoLowered(cfg, l, None);
    assert ss[1..] == [GotoLabel(l)];
    LowerStmtsCons(cfg, ss, None);
    assert [ss[0]] + [ss[1]] == ss;
  }

  /** The two lines behind the loop. */
  lemma ClashTail(cfg: Config, one: string, c: Ctr)
    requires cfg.Standard()
    ensures var prog := Clash(one);
            LowerList(cfg, prog[1..], c, None).code == [prog[1].line] + ([prog[2].line] + [])
  {
    var prog := Clash(one);
    AssignLowered(cfg, "y", one);
    SetGotoLowered(cfg, one, WHILE1);
    assert prog[1..][0] == prog[1] && prog[1..][1..] == [prog[2]] && [prog[2]][1..] == [];
    assert LowerList(cfg, [], c, None) == Low([], c);
    assert LowerList(cfg, [prog[2]], c, None) == Low([prog[2].line] + [], c);
  }

  lemma ClashLoopCode(cfg: Config, one: string)
    requires cfg.Standard() && cfg.d.parse(one) == Some(1.0)
    ensures LowerElem(cfg, Clash(one)[0], Ctr(0, 0), None) ==
            Low(WhileCode(cfg, 1, Num(one), [GotoLine("x")]), Ctr(0, 1))
    ensures LoopCond(cfg, Num(one)) == Num(one) && AlwaysTrue(cfg, Num(one))
  {
    var body, c1 := [Element.Plain(GotoLine("x"))], Ctr(0, 1);
    assert cfg.StandardOn(Num(one));
    GotoLowered(cfg, "x", Some(1));
    assert body[1..] == [] && LowerList(cfg, [], c1, Some(1)) == Low([], c1);
    assert LowerList(cfg, body, c1, Some(1)) == Low([GotoLine("x")] + [], c1);
    assert [GotoLine("x")] + [] == [GotoLine("x")];
  }

  lemma ClashLowered(cfg: Config, one: string)
    requires cfg.Standard() && cfg.d.parse(one) == Some(1.0)
    ensures LowerProgram(cfg, Clash(one)) == ClashCode(one, WHILE1, WHILE1)
  {
    var prog := Clash(one);
    ClashLoopCode(cfg, one);
    ClashTail(cfg, one, Ctr(0, 1));
    var a := LowerElem(cfg, prog[0], Ctr(0, 0), None);
    assert LowerProgram(cfg, prog) == a.code + ([prog[1].line] + ([prog[2].line] + []));
  }

  // ---- what it promises ----

  /** The places of the program: the loop, its body, behind it the two lines. */
  ghost predicate ClashPlace(one: string, c: SConf) {
    var prog := Clash(one);
    && c.SRun?
    && ((c.es == prog && c.k == Stop) || (c.es == prog[0].body && c.k == Loop(prog[0], Then(prog[1..], Stop)))
        || (c.es == prog[1..] && c.k == Stop) || (c.es == prog[2..] && c.k == Stop))
  }

  lemma NotInBody(one: string, l: LabelName)
    ensures SFindIn(Clash(one)[0], Clash(one)[1..], l, Stop) == None
  {
    var prog := Clash(one);
    var k := Loop(prog[0], Then(prog[1..], Stop));
    var body := prog[0].body;
    assert body[1..] == [] && SFind([], l, k) == None;
    assert SFindIn(body[0], body[1..], l, k) == None;
    assert SFind(body, l, k) == SFind(body[1..], l, k);
  }

  lemma ClashParts(one: string)
    ensures var prog := Clash(one);
            && prog[1..][0] == prog[1] && prog[1..][1..] == prog[2..] && prog[2..] == [prog[2]] && prog[2..][1..] == []
            && [prog[2]] + [] == prog[2..] && [prog[1]] + prog[2..] == prog[1..]
            && prog[0].body == [Element.Plain(GotoLine("x"))] && prog[0].body != prog[2..]
            && |prog| == 3 && |prog[1..]| == 2 && |prog[2..]| == 1
  {
    var prog := Clash(one);
    assert prog[2..][0] != prog[0].body[0];
  }

  lemma ClashFinds(one: string)
    ensures var prog := Clash(one);
            SFind(prog, "x", Stop) == Some(Point(prog[2..], Stop)) &&
            SFind(prog, WHILE1, Stop) == Some(Point(prog[1..], Stop))
  {
    var prog := Clash(one);
    ClashLabels();
    ClashParts(one);
    NotInBody(one, "x");
    NotInBody(one, WHILE1);
    assert SFind(prog, WHILE1, Stop) == SFind(prog[1..], WHILE1, Stop);
    assert SFindIn(prog[1], prog[2..], WHILE1, Stop) == Some(Point(prog[1..], Stop));
    assert SFind(prog, "x", Stop) == SFind(prog[1..], "x", Stop);
    assert SFindIn(prog[1], prog[2..], "x", Stop) == None;
    assert SFind(prog[1..], "x", Stop) == SFind(prog[2..], "x", Stop);
    assert SFindIn(prog[2], [], "x", Stop) == Some(Point(prog[2..], Stop));
  }

  /** The last line writes z and jumps. */
  lemma LastLineRuns(env: Env, one: string, l: LabelName, st: State)
    requires env.d.parse(one) == Some(1.0)
    ensures RunStmts(env.d, [Assign("z", Set, Num(one)), GotoLabel(l)], st) == Result(Jump(l), Put(st, "z", N(1.0)))
  {
    var ss := [Assign("z", Set, Num(one)), GotoLabel(l)];
    assert ss[1..] == [GotoLabel(l)];
    RunOne(env.d, GotoLabel(l), Put(st, "z", N(1.0)));
  }

  lemma ClashLoop(env: Env, one: string, st: State)
    requires env.d.parse(one) == Some(1.0)
    ensures var prog, k := Clash(one), Loop(Clash(one)[0], Then(Clash(one)[1..], Stop));
            && SStep(env, prog, SRun(prog, Stop, st)) == SRun(prog[0].body, k, st)
            && SStep(env, prog, SRun(prog[0].body, k, st)) == SRun(prog[2..], Stop, st)
  {
    ClashFinds(one);
    ClashParts(one);
    assert EvalCond(env.d, Num(one), st) == True(st);
    RunOne(env.d, GotoLabel("x"), st);
  }

  lemma ClashLines(env: Env, one: string, st: State)
    requires env.d.parse(one) == Some(1.0)
    ensures var prog := Clash(one);
            && SStep(env, prog, SRun(prog[2..], Stop, st)) == SRun(prog[1..], Stop, Put(st, "z", N(1.0)))
            && SStep(env, prog, SRun(prog[1..], Stop, st)) == SRun(prog[2..], Stop, Put(st, "y", N(1.0)))
  {
    ClashFinds(one);
    ClashParts(one);
    LastLineRuns(env, one, WHILE1, st);
    RunOne(env.d, Assign("y", Set, Num(one)), st);
  }

  /** Each step leads to another place. */
  lemma ClashStep(env: Env, one: string, c: SConf)
    requires env.d.parse(one) == Some(1.0) && ClashPlace(one, c)
    ensures ClashPlace(one, SStep(env, Clash(one), c))
  {
    ClashLoop(env, one, c.st);
    ClashLines(env, one, c.st);
  }

  lemma {:induction false} ClashRuns(env: Env, one: string, c: SConf, n: nat)
    requires env.d.parse(one) == Some(1.0) && ClashPlace(one, c)
    ensures ClashPlace(one, SSteps(env, Clash(one), n, c))
    decreases n
  {
    if n > 0 {
      ClashStep(env, one, c);
      ClashRuns(env, one, SStep(env, Clash(one), c), n - 1);
    }
  }

  /** The program never ends, and its first two writes go to z and y. */
  lemma ClashSource(env: Env, one: string, st: State)
    requires env.d.parse(one) == Some(1.0)
    ensures var a := Source(env, Clash(one), st);
            ErrorFree(a) && a(4) == Going(Put(Put(st, "z", N(1.0)), "y", N(1.0)))
  {
    var prog := Clash(one);
    var c0 := Go(prog, Stop, st);
    forall n: nat ensures !Source(env, prog, st)(n).Crashed? {
      ClashRuns(env, one, c0, n);
    }
    var k := Loop(prog[0], Then(prog[1..], Stop));
    var st1 := Put(st, "z", N(1.0));
    ClashLoop(env, one, st);
    ClashLines(env, one, st);
    ClashLines(env, one, st1);
    var c4 := SRun(prog[2..], Stop, Put(st1, "y", N(1.0)));
    FourSteps(env, prog, c0, SRun(prog[0].body, k, st), SRun(prog[2..], Stop, st), SRun(prog[1..], Stop, st1), c4, 4);
  }

  // ---- what its code does ----

  /** In the code, all jumps to the clashing label lead to the loop. */
  lemma ClashCodeFinds(one: string, second: LabelName, last: LabelName)
    ensures var f := ClashCode(one, second, last); Find(f, WHILE1) == Some(0) && Find(f, "x") == Some(5)
  {
    var f := ClashCode(one, second, last);
    ClashLabels();
    assert FindFrom(f, "x", 5) == Some(5);
    assert FindFrom(f, "x", 4) == FindFrom(f, "x", 5);
    assert FindFrom(f, "x", 3) == FindFrom(f, "x", 4);
    assert FindFrom(f, "x", 2) == FindFrom(f, "x", 3);
    assert FindFrom(f, "x", 1) == FindFrom(f, "x", 2);
    assert FindFrom(f, "x", 0) == FindFrom(f, "x", 1);
  }

  /** The code runs in circles, and writes z only. */
  ghost predicate OnlyZ(st: State, c: Conf) {
    && c.Run? && (c.pc == 0 || c.pc == 1 || c.pc == 5)
    && st.trace <= c.st.trace && forall i :: |st.trace| <= i < |c.st.trace| ==> c.st.trace[i].name == "z"
  }

  lemma ClashCodeStep(env: Env, one: string, st: State, c: Conf)
    requires env.d.parse(one) == Some(1.0) && OnlyZ(st, c)
    ensures OnlyZ(st, Step(env, ClashCode(one, WHILE1, WHILE1), c))
  {
    var f := ClashCode(one, WHILE1, WHILE1);
    ClashCodeFinds(one, WHILE1, WHILE1);
    RunOne(env.d, GotoLabel("x"), c.st);
    assert Lower("z") == "z";
    LastLineRuns(env, one, WHILE1, c.st);
    assert RunStmts(env.d, f[0].stmts, c.st) == Result(Next, c.st);
  }

  lemma {:induction false} ClashCodeRuns(env: Env, one: string, st: State, c: Conf, n: nat)
    requires env.d.parse(one) == Some(1.0) && OnlyZ(st, c)
    ensures OnlyZ(st, Steps(env, ClashCode(one, WHILE1, WHILE1), n, c))
    decreases n
  {
    if n > 0 {
      ClashCodeStep(env, one, st, c);
      ClashCodeRuns(env, one, st, Step(env, ClashCode(one, WHILE1, WHILE1), c), n - 1);
    }
  }

  lemma ClashFails(env: Env, cfg: Config, one: string, st: State)
    requires cfg.Standard() && env.d == cfg.d && env.d.parse(one) == Some(1.0)
    ensures !EquivalentUnlessError(Source(env, Clash(one), st), Flat(env, LowerProgram(cfg, Clash(one)), st))
  {
    ClashLowered(cfg, one);
    ClashSource(env, one, st);
    var a, b := Source(env, Clash(one), st), Flat(env, LowerProgram(cfg, Clash(one)), st);
    var t := a(4).st.trace;
    assert Lower("z") == "z" && Lower("y") == "y";
    assert t == st.trace + [Write("z", N(1.0))] + [Write("y", N(1.0))];
    forall m: nat ensures !Covers(a(4), b(m)) {
      ClashCodeRuns(env, one, st, Run(0, st), m);
      if |b(m).st.trace| >= |t| {
        assert b(m).st.trace[|st.trace| + 1].name == "z" && t[|st.trace| + 1].name == "y";
      }
    }
    assert !CoveredBy(a(4), b);
  }

  // ---- no error is reported ----

  lemma RedirectSame(p: seq<Line>, i: nat, j: nat)
    requires i < |p| && j < |p[i].stmts| && RedirectStmt(p, p[i].stmts[j]) == p[i].stmts[j]
    ensures RedirectAt(p, i, j) == p
  {
    assert p[i].stmts[j := p[i].stmts[j]] == p[i].stmts;
    assert p[i := p[i]] == p;
  }

  lemma RedirectOne(p: seq<Line>, i: nat)
    requires i < |p| && |p[i].stmts| == 1
    ensures RedirectLine(p, i, 0) == RedirectAt(p, i, 0)
  {
    assert RedirectLine(p, i, 0) == RedirectLine(RedirectAt(p, i, 0), i, 1);
  }

  /** The jumps to the clashing label are redirected to where the first line of the loop's body leads. */
  lemma ClashResolved(one: string)
    ensures ResolveChains(ClashCode(one, WHILE1, WHILE1)) == ClashCode(one, "x", "x")
  {
    var f, g, h := ClashCode(one, WHILE1, WHILE1), ClashCode(one, "x", WHILE1), ClashCode(one, "x", "x");
    ClashRedirects(one, WHILE1);
    ClashRedirects(one, "x");
    RedirectSame(f, 1, 0);
    RedirectSame(g, 4, 0);
    RedirectSame(g, 5, 0);
    assert f[2].stmts[0 := GotoLabel("x")] == [GotoLabel("x")];
    assert RedirectAt(f, 2, 0) == g;
    assert g[5].stmts[1 := GotoLabel("x")] == [Assign("z", Set, Num(one)), GotoLabel("x")];
    assert RedirectAt(g, 5, 1) == h;
    RedirectOne(f, 1);
    RedirectOne(f, 2);
    RedirectOne(g, 4);
    assert RedirectLine(g, 5, 0) == RedirectLine(g, 5, 1) == h;
    assert ResolveFrom(g, 5) == ResolveFrom(h, 6) == h;
    assert ResolveFrom(g, 4) == ResolveFrom(g, 5);
    assert ResolveFrom(g, 3) == ResolveFrom(g, 4);
    assert ResolveFrom(f, 2) == ResolveFrom(g, 3);
    assert ResolveFrom(f, 1) == ResolveFrom(f, 2);
    assert ResolveFrom(f, 0) == ResolveFrom(f, 1);
  }

  lemma ClashRedirects(one: string, second: LabelName)
    ensures var f := ClashCode(one, second, WHILE1); Redirect(f, "x") == "x" && Redirect(f, WHILE1) == "x"
  {
    var f := ClashCode(one, second, WHILE1);
    ClashCodeFinds(one, second, WHILE1);
    assert FirstGoto(f, 1) == Some("x") && FirstGoto(f, 0) == FirstGoto(f, 1);
    assert FirstGoto(f, 5) == None;
  }

  lemma ClashForm(one: string)
    ensures Placed(Clash(one), false) && NumberFree(Clash(one))
  {
    var prog := Clash(one);
    var body, ss := prog[0].body, prog[2].line.stmts;
    ClashParts(one);
    AssignPlaced("y", one);
    assert body[1..] == [] && [GotoLabel("x")][1..] == [] && ss[1..] == [GotoLabel(WHILE1)] && ss[1..][1..] == [];
    assert Placed([], true) && CleanList(Nothing, []) && JumpsPlaced([], true) && JumpsPlaced([], false);
    assert JumpsPlaced([GotoLabel("x")], true) && Labelled([GotoLabel("x")]);
    assert Placed(body, true) && CleanList(Nothing, body);
    assert JumpsPlaced(ss[1..], false) && JumpsPlaced(ss, false) && Labelled(ss);
    assert Placed([], false) && PlacedElem(prog[2], false);
    assert Placed(prog[2..], false) && CleanList(Nothing, prog[2..]);
    assert Placed(prog[1..], false) && CleanList(Nothing, prog[1..]);
  }

  lemma ShortGoto(l: LabelName)
    ensures PrintedLen([GotoLabel(l)]) <= 65
  {
    assert ListPieces([GotoLabel(l)]) == [T(Id("goto XX"))];
    ShortText(ListPieces([GotoLabel(l)]), false);
  }

  lemma ShortBoth(one: string, l: LabelName)
    requires |one| <= 8 && !Negative(one)
    ensures PrintedLen([Assign("z", Set, Num(one)), GotoLabel(l)]) <= 65
  {
    var s, ss := Assign("z", Set, Num(one)), [Assign("z", Set, Num(one)), GotoLabel(l)];
    assert Pieces(Compact, Num(one)) == [T(Number(one))] && ss[1..] == [GotoLabel(l)];
    assert StmtPieces(s) == [T(Id("z")), T(Symbol("=")), T(Number(one))];
    assert ListPieces([GotoLabel(l)]) == [T(Id("goto XX"))];
    assert ListPieces(ss) == StmtPieces(s) + ([Space] + [T(Id("goto XX"))]);
    ShortText(ListPieces(ss), false);
  }

  /** Only the last line is still named by gotos. */
  lemma ClashUsed(one: string)
    ensures Used(ClashCode(one, "x", "x")) <= {"x"} && LabelCount(ClashCode(one, WHILE1, WHILE1), "x") == 1
  {
    var r, f := ClashCode(one, "x", "x"), ClashCode(one, WHILE1, WHILE1);
    var ss := r[5].stmts;
    assert [GotoLabel("x")][1..] == [] && UsedIn([GotoLabel("x")]) == {"x"};
    assert ss[1..] == [GotoLabel("x")] && UsedInStmt(ss[0]) == {} && UsedIn(ss) == {"x"};
    AssignPlaced("y", one);
    forall i | 0 <= i < |r| ensures UsedIn(r[i].stmts) <= {"x"} {
    }
    UsedWithin(r, {"x"});
    ClashLabels();
    assert f[0..] == f && f[6..] == [];
    CountStep(f, 0, "x");
    CountStep(f, 1, "x");
    CountStep(f, 2, "x");
    CountStep(f, 3, "x");
    CountStep(f, 4, "x");
    CountStep(f, 5, "x");
  }

  lemma ClashAccepted(cfg: Config, tracksTime: bool, one: string)
    requires cfg.Standard() && cfg.lay == StandardLayout(tracksTime) && cfg.d.parse(one) == Some(1.0)
    requires |one| <= 8 && !Negative(one)
    ensures Compile(cfg, Clash(one)).Compiled? && EndReachable(Dedup(Packed(cfg, Clash(one)).value))
  {
    ClashLowered(cfg, one);
    ClashResolved(one);
    ClashForm(one);
    ClashUsed(one);
    StandardIsSensible(tracksTime);
    ShortGoto("x");
    ShortAssign("y", one);
    ShortBoth(one, "x");
    AcceptedCode(cfg, Clash(one), ClashCode(one, WHILE1, WHILE1), ClashCode(one, "x", "x"));
  }

  lemma AcceptedCode(cfg: Config, prog: seq<Element>, f: seq<Line>, r: seq<Line>)
    requires f == LowerProgram(cfg, prog) && r == ResolveChains(f) && Placed(prog, false) && Sensible(cfg.lay)
    requires |f| < LAST_LINE && forall i :: 0 <= i < |r| ==> cfg.lay.len(r[i].stmts) <= cfg.lay.max
    requires forall l :: l in Used(r) ==> LabelCount(f, l) == 1
    ensures Compile(cfg, prog).Compiled? && EndReachable(Dedup(Packed(cfg, prog).value))
  {
    Accepted(cfg, prog);
  }

  /** A clash that is not reported: the compiler accepts the program, which sets the label of its loop once more, and
      the YOLOL code never gets to the user's line. */
  lemma ClashMiscompiled(env: Env, tracksTime: bool, one: string, st: State)
    requires env.d.ReadsNaturals() && !env.resume
    requires env.d.parse(one) == Some(1.0) && |one| <= 8 && !Negative(one)
    ensures var r := Compile(NewConfig(env.d, StandardLayout(tracksTime)), Clash(one));
            r.Compiled? && !EquivalentUnlessError(Source(env, Clash(one), st), Vm(env, r.code, st))
  {
    var cfg := NewConfig(env.d, StandardLayout(tracksTime));
    ClashAccepted(cfg, tracksTime, one);
    ClashForm(one);
    ClashFails(env, cfg, one, st);
    WrongCode(env, cfg, Clash(one), st);
  }
}
