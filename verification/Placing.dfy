/** The code that lowering makes for a structured program stands for it. */
module Placing {
  import opened Ast
  import opened Operations
  import opened Semantics
  import opened Behaviour
  import opened Machine
  import opened Nolol
  import opened Labels
  import opened Inversion
  import opened Rewriting
  import opened Folding
  import opened Merging
  import opened Gotos
  import opened Lowering
  import opened LabelCounting
  import opened Tidying
  import opened Silence
  import opened Standing
  import Simulation

  // ---- where code stands ----

  ghost predicate LineAt(f: seq<Line>, p: nat, code: seq<Line>, i: nat) {
    i < |code| ==> p + i < |f| && TidyOf(f[p + i], code[i])
  }

  ghost predicate CodeAt(f: seq<Line>, p: nat, code: seq<Line>) {
    p + |code| <= |f| && forall i: nat {:trigger LineAt(f, p, code, i)} :: LineAt(f, p, code, i)
  }

  lemma CodeAtAppend(f: seq<Line>, p: nat, a: seq<Line>, b: seq<Line>)
    requires CodeAt(f, p, a + b)
    ensures CodeAt(f, p, a) && CodeAt(f, p + |a|, b)
  {
    forall i: nat ensures LineAt(f, p, a, i) {
      assert LineAt(f, p, a + b, i);
    }
    var q := p + |a|;
    forall i: nat ensures LineAt(f, q, b, i) {
      assert LineAt(f, p, a + b, |a| + i);
    }
  }

  lemma CodeAtOne(f: seq<Line>, p: nat, line: Line)
    requires CodeAt(f, p, [line])
    ensures p < |f| && TidyOf(f[p], line)
  {
    assert LineAt(f, p, [line], 0);
  }

  lemma FixedAt(f: seq<Line>, p: nat, line: Line)
    requires CodeAt(f, p, [line]) && TidyStmts(line.stmts) == line.stmts
    ensures p < |f| && f[p] == line
  {
    CodeAtOne(f, p, line);
    TidyFixed(f[p], line);
  }

  lemma GotoIfAt(f: seq<Line>, p: nat, line: Line, cond: Expr, g: Gen)
    requires CodeAt(f, p, [line]) && line.stmts == [GotoIf(cond, g)]
    ensures p < |f| && f[p] == line
  {
    GotoIfStays(cond, Text(g));
    FixedAt(f, p, line);
  }

  lemma GotoAt(f: seq<Line>, p: nat, line: Line, l: LabelName)
    requires CodeAt(f, p, [line]) && line.stmts == [GotoLabel(l)]
    ensures p < |f| && f[p] == line
  {
    GotoStays(l);
    FixedAt(f, p, line);
  }

  lemma WholeCodeAt(f: seq<Line>)
    ensures CodeAt(f, 0, f)
  {
    forall i: nat ensures LineAt(f, 0, f, i) {
      if i < |f| {
        TidySelf(f[i]);
      }
    }
  }

  /** Where the lines of a block stand after an attempt to inline it, the lines of the block stand. */
  lemma AttemptedAt(cfg: Config, f: seq<Line>, p: nat, body: seq<Line>)
    requires CodeAt(f, p, Attempted(cfg, body))
    ensures CodeAt(f, p, body)
  {
    forall i: nat ensures LineAt(f, p, body, i) {
      assert LineAt(f, p, Attempted(cfg, body), i);
      if i < |body| && Attempted(cfg, body) != body {
        TidyMore(f[p + i], body[i]);
      }
    }
  }

  // ---- labels that lead where they stand ----

  /** A jump to the label of line `q` leads to line `q`. */
  ghost predicate FindsAt(f: seq<Line>, q: nat)
    requires q < |f|
  {
    f[q].lbl != "" ==> Find(f, f[q].lbl) == Some(q)
  }

  ghost predicate FindsAll(f: seq<Line>) {
    forall q: nat {:trigger FindsAt(f, q)} :: q < |f| ==> FindsAt(f, q)
  }

  lemma FindMark(f: seq<Line>, q: nat, g: Gen)
    requires FindsAll(f) && q < |f| && f[q].lbl == Text(g)
    ensures Find(f, Text(g)) == Some(q)
  {
    assert FindsAt(f, q);
  }

  // ---- the statements of a line ----

  function ExitsOf(lp: Option<nat>): Option<Exits> {
    if lp.Some? then Some(Exits(Text(LoopStart(lp.value)), Text(LoopEnd(lp.value)))) else None
  }

  lemma {:induction false} LowerJumpRun(d: Decimals, s: Stmt, lp: Option<nat>, st: State)
    ensures RunStmt(d, LowerJump(s, lp), st) ==
            var r := RunStmt(d, s, st); Result(LoweredSignal(r.sig, ExitsOf(lp)), r.st)
    decreases s, 1
  {
    if s.If? {
      LowerJumpsRun(d, s.thn, lp, EvalCond(d, s.cond, st).st);
      LowerJumpsRun(d, s.els, lp, EvalCond(d, s.cond, st).st);
    }
  }

  lemma {:induction false} LowerJumpsRun(d: Decimals, ss: seq<Stmt>, lp: Option<nat>, st: State)
    ensures RunStmts(d, LowerJumps(ss, lp), st) ==
            var r := RunStmts(d, ss, st); Result(LoweredSignal(r.sig, ExitsOf(lp)), r.st)
    decreases ss, 0
  {
    if ss != [] {
      LowerJumpRun(d, ss[0], lp, st);
      LowerJumpsRun(d, ss[1..], lp, RunStmt(d, ss[0], st).st);
      assert LowerJumps(ss, lp)[1..] == LowerJumps(ss[1..], lp);
    }
  }

  /** Converting an expression does not change its value. */
  lemma BinaryEval(cfg: Config, e: Expr, st: State)
    requires cfg.Standard() && cfg.d.ShowsExactly()
    ensures Eval(cfg.d, cfg.binary(e), st) == Eval(cfg.d, e, st)
  {
    assert cfg.StandardOn(e);
    FoldBinaryEval(cfg.d, e, st);
  }

  lemma LowerStmtsRun(cfg: Config, ss: seq<Stmt>, lp: Option<nat>, st: State)
    requires cfg.Standard() && cfg.d.ShowsExactly()
    ensures RunStmts(cfg.d, LowerStmts(cfg, ss, lp), st) ==
            var r := RunStmts(cfg.d, ss, st); Result(LoweredSignal(r.sig, ExitsOf(lp)), r.st)
  {
    forall e, st' ensures Eval(cfg.d, cfg.binary(e), st') == Eval(cfg.d, e, st') {
      BinaryEval(cfg, e, st');
    }
    ExactRun(cfg.d, cfg.binary, LowerJumps(ss, lp), st);
    LowerJumpsRun(cfg.d, ss, lp, st);
  }

  /** The shortened negation of a condition is its negation. */
  lemma NegatedTruth(cfg: Config, e: Expr, st: State)
    requires cfg.Standard() && FineAsCondition(cfg.d, e)
    ensures var t := EvalCond(cfg.d, e, st);
            var t' := EvalCond(cfg.d, cfg.boolexp(Un(Not, e)), st);
            (t.Bad? <==> t'.Bad?) && (t.True? ==> t' == False(t.st)) && (t.False? ==> t' == True(t.st))
  {
    assert cfg.StandardOn(Un(Not, e));
    InvertCondition(cfg.d, Un(Not, e), st);
    NotTruth(cfg.d, e, st);
  }

  lemma RunOne(d: Decimals, s: Stmt, st: State)
    ensures RunStmts(d, [s], st) == RunStmt(d, s, st)
  {
    assert [s][1..] == [];
    var r := RunStmt(d, s, st);
    assert RunStmts(d, [], r.st) == Result(Next, r.st);
  }

  lemma RunIf(d: Decimals, cond: Expr, ss: seq<Stmt>, st: State)
    ensures var t := EvalCond(d, cond, st);
            RunStmts(d, [If(cond, ss, [])], st) ==
            if t.Bad? then Result(Fail, t.st)
            else if t.True? then RunStmts(d, ss, t.st)
            else Result(Next, t.st)
  {
    RunOne(d, If(cond, ss, []), st);
  }

  // ---- blocks that became part of a single line ----

  lemma {:induction false} MergeFromConcat(lay: Layout, lines: seq<Line>, i: nat, done: seq<Line>)
    requires i <= |lines| && MergeFrom(lay, lines, i, done).Some?
    ensures Concat(MergeFrom(lay, lines, i, done).value) == Concat(done) + Concat(lines[i..])
    ensures |MergeFrom(lay, lines, i, done).value| >= |done| + (if i < |lines| then 1 else 0)
    decreases |lines| - i
  {
    if i < |lines| {
      var k := GroupLast(lay, lines, i).value + 1;
      assert lines[i..] == lines[i..k] + lines[k..];
      ConcatAppend(lines[i..k], lines[k..]);
      ConcatSnoc(done, Joined(lines[i..k]));
      MergeFromConcat(lay, lines, k, done + [Joined(lines[i..k])]);
    }
  }

  /** A block that is merged to at most one line consists of exactly the statements of that line. */
  lemma MergedStmts(cfg: Config, body: seq<Line>)
    requires Merge(cfg.lay, body).Some? && |MergedBlock(cfg, body)| <= 1
    ensures body == [] <==> MergedBlock(cfg, body) == []
    ensures MergedBlock(cfg, body) != [] ==> MergedBlock(cfg, body)[0].stmts == Concat(body)
  {
    var m := MergedBlock(cfg, body);
    MergeFromConcat(cfg.lay, body, 0, []);
    assert body[0..] == body;
    if m != [] {
      assert m == [m[0]];
      ConcatOne(m[0]);
    }
  }

  ghost predicate NoLabels(code: seq<Line>) {
    forall i :: 0 <= i < |code| ==> code[i].lbl == ""
  }

  lemma MergedUnlabelled(cfg: Config, body: seq<Line>)
    requires Merge(cfg.lay, body).Some? && |MergedBlock(cfg, body)| <= 1
    requires MergedBlock(cfg, body) != [] ==> MergedBlock(cfg, body)[0].lbl == ""
    ensures NoLabels(body)
  {
    forall i | 0 <= i < |body| ensures body[i].lbl == "" {
      if body[i].lbl != "" {
        MergeCount(cfg.lay, body, body[i].lbl);
        CountAt(body, body[i].lbl, i);
      }
    }
  }

  lemma NestedIsLabelled(cfg: Config, e: Element, c: Ctr, lp: Option<nat>)
    requires !e.Plain?
    ensures !NoLabels(LowerElem(cfg, e, c, lp).code)
  {
    var a := LowerElem(cfg, e, c, lp);
    var g := if e.While? then LoopEnd(c.loops + 1) else IfEnd(a.ctr.ifs - 1);
    assert a.code[|a.code| - 1] == Mark(g);
  }

  /** Code without labels comes from lines without labels only. */
  lemma {:induction false} UnlabelledIsPlain(cfg: Config, es: seq<Element>, c: Ctr, lp: Option<nat>)
    requires NoLabels(LowerList(cfg, es, c, lp).code)
    ensures Simple(es)
    decreases |es|
  {
    if es != [] {
      var a := LowerElem(cfg, es[0], c, lp);
      var b := LowerList(cfg, es[1..], a.ctr, lp);
      var code := a.code + b.code;
      assert forall i :: 0 <= i < |a.code| ==> code[i] == a.code[i];
      assert forall i :: 0 <= i < |b.code| ==> code[|a.code| + i] == b.code[i];
      if !es[0].Plain? {
        NestedIsLabelled(cfg, es[0], c, lp);
      }
      assert a.code == [LowerLine(cfg, es[0].line, lp)];
      assert code[0].lbl == es[0].line.lbl;
      UnlabelledIsPlain(cfg, es[1..], a.ctr, lp);
    }
  }

  // ---- the blocks of an if ----

  /** The counters when the conversion reaches branch `j`. */
  function BranchCtr(cfg: Config, branches: seq<Branch>, j: nat, c: Ctr, lp: Option<nat>): Ctr
    requires j <= |branches|
  {
    if j == 0 then c
    else BranchCtr(cfg, branches[1..], j - 1, LowerList(cfg, branches[0].body, c, lp).ctr, lp)
  }

  lemma {:induction false} BodiesAt(cfg: Config, own: iset<string>, branches: seq<Branch>, j: nat, c: Ctr,
                                    lp: Option<nat>)
    requires j < |branches| && FaithfulBodies(cfg, own, branches, c, lp)
    ensures var cj := BranchCtr(cfg, branches, j, c, lp);
            Faithful(cfg, own, branches[j].body, cj, lp) &&
            LowerBodies(cfg, branches, c, lp).0[j] == LowerList(cfg, branches[j].body, cj, lp).code
    decreases j
  {
    if j > 0 {
      BodiesAt(cfg, own, branches[1..], j - 1, LowerList(cfg, branches[0].body, c, lp).ctr, lp);
    }
  }

  // ---- the branches of an if ----

  /** Where the parts of a branch stand that was not inlined. */
  lemma LongCode(cfg: Config, f: seq<Line>, q: nat, skip: Gen, cond: Expr, body: seq<Line>, end: Option<Gen>)
    requires CodeAt(f, q, LongBranch(cfg, skip, cond, body, end))
    ensures q < |f| && f[q].stmts == [GotoIf(cfg.boolexp(Un(Not, cond)), skip)]
    ensures CodeAt(f, q + 1, body)
    ensures var b := q + 1 + |body|;
            var s := if end.Some? then b + 1 else b;
            && s + 1 == q + |LongBranch(cfg, skip, cond, body, end)| <= |f|
            && f[s] == Mark(skip)
            && (end.Some? ==> f[b].stmts == [GotoLabel(Text(end.value))])
  {
    var head := Bare([GotoIf(cfg.boolexp(Un(Not, cond)), skip)]);
    var jump := if end.Some? then [Bare([GotoLabel(Text(end.value))])] else [];
    CodeAtAppend(f, q, [head] + body + jump, [Mark(skip)]);
    CodeAtAppend(f, q, [head] + body, jump);
    CodeAtAppend(f, q, [head], body);
    GotoIfAt(f, q, head, cfg.boolexp(Un(Not, cond)), skip);
    FixedAt(f, q + 1 + |body| + |jump|, Mark(skip));
    if end.Some? {
      GotoAt(f, q + 1 + |body|, jump[0], Text(end.value));
    }
  }

  // ---- loops ----

  lemma LoopHeadAt(cfg: Config, f: seq<Line>, n: nat, cond: Expr, p: nat)
    requires CodeAt(f, p, [LoopHead(cfg, n, cond)])
    ensures p < |f| && f[p] == LoopHead(cfg, n, cond)
  {
    var c := LoopCond(cfg, cond);
    if AlwaysTrue(cfg, c) {
      FixedAt(f, p, LoopHead(cfg, n, cond));
    } else {
      GotoIfAt(f, p, LoopHead(cfg, n, cond), cfg.boolexp(Un(Not, c)), LoopEnd(n));
    }
  }

  /** Where the parts of a loop stand. */
  lemma LoopPlaces(cfg: Config, f: seq<Line>, n: nat, cond: Expr, body: seq<Line>, p: nat)
    requires FindsAll(f) && CodeAt(f, p, WhileCode(cfg, n, cond, body))
    ensures p < |f| && f[p] == LoopHead(cfg, n, cond) && CodeAt(f, p + 1, body)
    ensures Find(f, Text(LoopStart(n))) == Some(p)
    ensures var q := p + 1 + |body|;
            && Silent(f, q, p)
            && Find(f, Text(LoopEnd(n))) == Some(q + 1)
            && Silent(f, q + 1, p + |WhileCode(cfg, n, cond, body)|)
  {
    var head, jump, last := LoopHead(cfg, n, cond), Bare([GotoLabel(Text(LoopStart(n)))]), Mark(LoopEnd(n));
    var q := p + 1 + |body|;
    assert [head] + body + [jump, last] == [head] + body + [jump] + [last];
    CodeAtAppend(f, p, [head] + body + [jump], [last]);
    CodeAtAppend(f, p, [head] + body, [jump]);
    CodeAtAppend(f, p, [head], body);
    LoopHeadAt(cfg, f, n, cond, p);
    GotoAt(f, q, jump, Text(LoopStart(n)));
    FixedAt(f, q + 1, last);
    FindMark(f, p, LoopStart(n));
    FindMark(f, q + 1, LoopEnd(n));
    SilentEmpty(f, q + 1);
    SilentGoto(f, q, Text(LoopStart(n)));
  }

  /** The end mark of an if, which is reached from the end of the else block. */
  lemma IfTail(f: seq<Line>, n: nat, p: nat, branches: seq<Line>, els: seq<Line>)
    requires FindsAll(f) && CodeAt(f, p, branches + els + [Mark(IfEnd(n))])
    ensures CodeAt(f, p, branches) && CodeAt(f, p + |branches|, els)
    ensures var e := p + |branches| + |els|; Silent(f, e, e + 1) && Reaches(f, Text(IfEnd(n)), e + 1)
  {
    CodeAtAppend(f, p, branches + els, [Mark(IfEnd(n))]);
    CodeAtAppend(f, p, branches, els);
    FixedAt(f, p + |branches| + |els|, Mark(IfEnd(n)));
    FindMark(f, p + |branches| + |els|, IfEnd(n));
    SilentEmpty(f, p + |branches| + |els|);
  }

  // ---- everything in its place ----

  ghost predicate Lowers(cfg: Config, w: Site) {
    cfg.Standard() && cfg.d.ShowsExactly() && w.d == cfg.d && FindsAll(w.f)
  }

  /** The user's lines jump to the user's labels only. */
  lemma OwnJump(d: Decimals, own: iset<string>, ss: seq<Stmt>, st: State)
    requires OwnTargets(own, ss)
    ensures var s := RunStmts(d, ss, st).sig; s.Jump? ==> s.target in own
  {
    JumpUsed(d, ss, st);
    var s := RunStmts(d, ss, st).sig;
    if s.Jump? {
      assert OwnTarget(own, ss, s.target);
    }
  }

  lemma PlainStands(cfg: Config, w: Site, line: Line, lp: Option<nat>, p: nat)
    requires Lowers(cfg, w) && p < |w.f| && TidyOf(w.f[p], LowerLine(cfg, line, lp))
    requires OwnTargets(w.user, line.stmts)
    ensures PlainAt(w, line, ExitsOf(lp), p)
  {
    assert FindsAt(w.f, p);
    TidyLabel(w.f[p], LowerLine(cfg, line, lp));
    forall st ensures PlainRuns(w, line.stmts, ExitsOf(lp), p, st) {
      TidyRun(cfg.d, w.f[p], LowerLine(cfg, line, lp), st);
      LowerStmtsRun(cfg, line.stmts, lp, st);
      OwnJump(cfg.d, w.user, line.stmts, st);
    }
  }

  /** A line that jumps away if the negated condition holds. */
  lemma NegatedTest(cfg: Config, w: Site, cond: Expr, c: Expr, g: Gen, p: nat)
    requires Lowers(cfg, w) && p < |w.f| && w.f[p].stmts == [GotoIf(cfg.boolexp(Un(Not, c)), g)]
    requires FineAsCondition(cfg.d, c) && forall st :: Eval(cfg.d, c, st) == Eval(cfg.d, cond, st)
    ensures TestAt(w, cond, Text(g), p)
  {
    forall st ensures TestRuns(w, cond, Text(g), p, st) {
      NegatedTruth(cfg, c, st);
      RunIf(cfg.d, cfg.boolexp(Un(Not, c)), [GotoLabel(Text(g))], st);
      RunOne(cfg.d, GotoLabel(Text(g)), EvalCond(cfg.d, c, st).st);
    }
  }

  /** The first line of a loop. */
  lemma HeadStands(cfg: Config, w: Site, n: nat, cond: Expr, p: nat)
    requires Lowers(cfg, w) && FineAsCondition(cfg.d, LoopCond(cfg, cond))
    requires p < |w.f| && w.f[p] == LoopHead(cfg, n, cond)
    ensures TestAt(w, cond, Text(LoopEnd(n)), p)
  {
    var c := LoopCond(cfg, cond);
    forall st ensures Eval(cfg.d, c, st) == Eval(cfg.d, cond, st) {
      BinaryEval(cfg, cond, st);
      FoldEval(cfg.d, cfg.binary(cond), st);
      assert cfg.StandardOn(cfg.binary(cond));
    }
    if AlwaysTrue(cfg, c) {
      forall st ensures TestRuns(w, cond, Text(LoopEnd(n)), p, st) {
        assert Eval(cfg.d, c, st) == Eval(cfg.d, cond, st);
      }
    } else {
      NegatedTest(cfg, w, cond, c, LoopEnd(n), p);
    }
  }

  /** The merged statements of a block do what its lines do. */
  lemma {:induction false} SimpleStmts(cfg: Config, own: iset<string>, es: seq<Element>, c: Ctr, lp: Option<nat>,
                                       st: State)
    requires cfg.Standard() && cfg.d.ShowsExactly() && Simple(es) && Faithful(cfg, own, es, c, lp)
    ensures var r := RunStmts(cfg.d, BlockStmts(es), st);
            RunStmts(cfg.d, Concat(LowerList(cfg, es, c, lp).code), st) ==
                Result(LoweredSignal(r.sig, ExitsOf(lp)), r.st) &&
            (r.sig.Jump? ==> r.sig.target in own)
    decreases |es|
  {
    if es != [] {
      var line := es[0].line;
      var a := LowerElem(cfg, es[0], c, lp);
      var rest := LowerList(cfg, es[1..], a.ctr, lp).code;
      ConcatAppend(a.code, rest);
      ConcatOne(LowerLine(cfg, line, lp));
      LowerStmtsRun(cfg, line.stmts, lp, st);
      RunAppend(cfg.d, LowerStmts(cfg, line.stmts, lp), Concat(rest), st);
      RunAppend(cfg.d, line.stmts, BlockStmts(es[1..]), st);
      OwnJump(cfg.d, own, line.stmts, st);
      SimpleStmts(cfg, own, es[1..], a.ctr, lp, RunStmts(cfg.d, line.stmts, st).st);
    }
  }

  function EndLabel(end: Option<Gen>): Option<LabelName> {
    if end.Some? then Some(Text(end.value)) else None
  }

  /** The block of a branch, its condition as it is converted, and its code. */
  ghost predicate BranchOf(cfg: Config, own: iset<string>, b: Branch, c: Ctr, lp: Option<nat>, cond: Expr,
                           body: seq<Line>, end: Option<Gen>) {
    && Faithful(cfg, own, b.body, c, lp) && body == LowerList(cfg, b.body, c, lp).code
    && cond == cfg.binary(b.cond) && FaithfulBranch(cfg, cond, body, end)
  }

  /** The statements of an inlined branch. */
  lemma InlineStmtsOf(cfg: Config, own: iset<string>, b: Branch, c: Ctr, lp: Option<nat>, cond: Expr, body: seq<Line>,
                      end: Option<Gen>)
    requires BranchOf(cfg, own, b, c, lp, cond, body, end) && InlineBranch(cfg, cond, body, end).Some?
    ensures Simple(b.body)
    ensures InlineStmts(MergedBlock(cfg, body), end) ==
            Concat(body) + if end.Some? then [GotoLabel(Text(end.value))] else []
  {
    MergedStmts(cfg, body);
    MergedUnlabelled(cfg, body);
    UnlabelledIsPlain(cfg, b.body, c, lp);
    if body == [] {
      assert Concat(body) == [];
    }
  }

  /** Running the block of an inlined branch. */
  lemma InlinedBlockRun(cfg: Config, w: Site, b: Branch, c: Ctr, lp: Option<nat>, body: seq<Line>, end: Option<Gen>,
                        st: State)
    requires Lowers(cfg, w) && Simple(b.body) && Faithful(cfg, w.user, b.body, c, lp) &&
             body == LowerList(cfg, b.body, c, lp).code
    ensures RunStmts(cfg.d, Concat(body) + if end.Some? then [GotoLabel(Text(end.value))] else [], st) ==
            InlineResult(w, b.body, ExitsOf(lp), EndLabel(end), st)
    ensures UserJump(w, RunStmts(w.d, BlockStmts(b.body), st).sig)
  {
    SimpleStmts(cfg, w.user, b.body, c, lp, st);
    RunAppend(cfg.d, Concat(body), if end.Some? then [GotoLabel(Text(end.value))] else [], st);
    if end.Some? {
      RunOne(cfg.d, GotoLabel(Text(end.value)), RunStmts(cfg.d, Concat(body), st).st);
    }
  }

  lemma InlinedRun(cfg: Config, w: Site, b: Branch, c: Ctr, lp: Option<nat>, cond: Expr, body: seq<Line>,
                   end: Option<Gen>, ss: seq<Stmt>, p: nat, st: State)
    requires Lowers(cfg, w) && Simple(b.body) && Faithful(cfg, w.user, b.body, c, lp) &&
             body == LowerList(cfg, b.body, c, lp).code
    requires cond == cfg.binary(b.cond) && ss == Concat(body) + if end.Some? then [GotoLabel(Text(end.value))] else []
    requires p < |w.f| && TidyOf(w.f[p], Bare(DedupStmts([If(cond, ss, [])], false).stmts))
    ensures InlineRuns(w, b, ExitsOf(lp), EndLabel(end), p, st)
  {
    TidyRun(cfg.d, w.f[p], Bare(DedupStmts([If(cond, ss, [])], false).stmts), st);
    DedupRun(cfg.d, [If(cond, ss, [])], st);
    RunIf(cfg.d, cond, ss, st);
    BinaryEval(cfg, b.cond, st);
    InlinedBlockRun(cfg, w, b, c, lp, body, end, EvalCond(cfg.d, b.cond, st).st);
  }

  lemma InlinedStands(cfg: Config, w: Site, b: Branch, c: Ctr, lp: Option<nat>, n: nat, i: nat, cond: Expr,
                      body: seq<Line>, end: Option<Gen>, p: nat, after: nat)
    requires Lowers(cfg, w) && BranchOf(cfg, w.user, b, c, lp, cond, body, end) &&
             InlineBranch(cfg, cond, body, end).Some?
    requires CodeAt(w.f, p, BranchCode(cfg, n, i, cond, body, end)) && ExitAt(w.f, EndLabel(end), p + 1, after)
    ensures InlinedAt(w, b, ExitsOf(lp), EndLabel(end), p, p + 1, after)
  {
    var line := InlineBranch(cfg, cond, body, end).value;
    CodeAtOne(w.f, p, line);
    InlineStmtsOf(cfg, w.user, b, c, lp, cond, body, end);
    forall st ensures InlineRuns(w, b, ExitsOf(lp), EndLabel(end), p, st) {
      InlinedRun(cfg, w, b, c, lp, cond, body, end, InlineStmts(MergedBlock(cfg, body), end), p, st);
    }
  }

  /** From the end of the block of a branch that was not inlined execution gets to the end of the if. */
  lemma SkippedExit(cfg: Config, w: Site, skip: Gen, cond: Expr, body: seq<Line>, end: Option<Gen>, p: nat, after: nat)
    requires FindsAll(w.f) && CodeAt(w.f, p, LongBranch(cfg, skip, cond, body, end))
    requires ExitAt(w.f, EndLabel(end), p + |LongBranch(cfg, skip, cond, body, end)|, after)
    ensures Reaches(w.f, Text(skip), p + |LongBranch(cfg, skip, cond, body, end)|) && Silent(w.f, p + 1 + |body|, after)
  {
    var next := p + |LongBranch(cfg, skip, cond, body, end)|;
    LongCode(cfg, w.f, p, skip, cond, body, end);
    FindMark(w.f, next - 1, skip);
    SilentEmpty(w.f, next - 1);
    var last := p + 1 + |body|;
    if end.Some? {
      SilentGoto(w.f, last, Text(end.value));
      SilentTransitive(w.f, last, Find(w.f, Text(end.value)).value, after);
    } else {
      SilentTransitive(w.f, last, next, after);
    }
  }

  /** A branch that was not inlined. */
  lemma SkippedStands(cfg: Config, w: Site, b: Branch, skip: Gen, cond: Expr, body: seq<Line>, end: Option<Gen>,
                      p: nat, q: nat, after: nat)
    requires Lowers(cfg, w) && cond == cfg.binary(b.cond) && FineAsCondition(cfg.d, cond)
    requires CodeAt(w.f, p, LongBranch(cfg, skip, cond, body, end)) && q == p + |LongBranch(cfg, skip, cond, body, end)|
    requires ExitAt(w.f, EndLabel(end), q, after)
    ensures CodeAt(w.f, p + 1, body)
    ensures SkippedAt(w, b, Text(skip), p, q, p + 1 + |body|, after)
  {
    LongCode(cfg, w.f, p, skip, cond, body, end);
    SkippedExit(cfg, w, skip, cond, body, end, p, after);
    forall st ensures Eval(cfg.d, cond, st) == Eval(cfg.d, b.cond, st) {
      BinaryEval(cfg, b.cond, st);
    }
    NegatedTest(cfg, w, b.cond, cond, skip, p);
  }

  /** The block of a branch with several lines, as the attempt to inline it leaves it. */
  lemma LongParts(cfg: Config, f: seq<Line>, n: nat, i: nat, cond: Expr, body: seq<Line>, end: Option<Gen>, p: nat,
                  q: nat) returns (block: seq<Line>)
    requires CodeAt(f, p, BranchCode(cfg, n, i, cond, body, end)) && q == p + |BranchCode(cfg, n, i, cond, body, end)|
    requires InlineBranch(cfg, cond, body, end).None?
    ensures CodeAt(f, p, LongBranch(cfg, IfSkip(n, i), cond, block, end))
    ensures q == p + |LongBranch(cfg, IfSkip(n, i), cond, block, end)| && |block| == |body|
    ensures CodeAt(f, p + 1, block) ==> CodeAt(f, p + 1, body)
  {
    block := Attempted(cfg, body);
    if CodeAt(f, p + 1, block) {
      AttemptedAt(cfg, f, p + 1, body);
    }
  }

  lemma {:induction false} BranchStands(cfg: Config, w: Site, b: Branch, c: Ctr, lp: Option<nat>, n: nat, i: nat,
                                        cond: Expr, body: seq<Line>, end: Option<Gen>, p: nat, q: nat, after: nat)
    requires Lowers(cfg, w) && BranchOf(cfg, w.user, b, c, lp, cond, body, end)
    requires CodeAt(w.f, p, BranchCode(cfg, n, i, cond, body, end)) && q == p + |BranchCode(cfg, n, i, cond, body, end)|
    requires ExitAt(w.f, EndLabel(end), q, after)
    ensures BranchAt(w, b, ExitsOf(lp), p, q, after)
    decreases b, 1, 0
  {
    if InlineBranch(cfg, cond, body, end).Some? {
      InlinedStands(cfg, w, b, c, lp, n, i, cond, body, end, p, after);
      InlinedJoin(w, b, ExitsOf(lp), EndLabel(end), p, q, after);
    } else {
      var block := LongParts(cfg, w.f, n, i, cond, body, end, p, q);
      SkippedStands(cfg, w, b, IfSkip(n, i), cond, block, end, p, q, after);
      LongStands(cfg, w, b, c, lp, Text(IfSkip(n, i)), p, q, p + 1 + |body|, after, body);
    }
  }

  lemma {:induction false} LongStands(cfg: Config, w: Site, b: Branch, c: Ctr, lp: Option<nat>, skip: LabelName,
                                      p: nat, q: nat, last: nat, after: nat, body: seq<Line>)
    requires Lowers(cfg, w) && Faithful(cfg, w.user, b.body, c, lp) && SkippedAt(w, b, skip, p, q, last, after)
    requires body == LowerList(cfg, b.body, c, lp).code && CodeAt(w.f, p + 1, body) && last == p + 1 + |body|
    ensures BranchAt(w, b, ExitsOf(lp), p, q, after)
    decreases b, 0, 0
  {
    ListStands(cfg, w, b.body, c, lp, p + 1, last, body);
    SkippedJoin(w, b, ExitsOf(lp), skip, p, q, last, after);
  }

  /** The code of the branches from number `i` on stands at `p`, and the labels and lines behind them lead to
      the end of the if. */
  ghost predicate IfAt(cfg: Config, w: Site, n: nat, i: nat, conds: seq<Expr>, bodies: seq<seq<Line>>,
                       hasElse: bool, p: nat, r: nat, after: nat)
    requires |conds| == |bodies| && i <= |conds|
  {
    && (forall code {:trigger IsCode(cfg, n, i, conds, bodies, hasElse, code)} ::
          IsCode(cfg, n, i, conds, bodies, hasElse, code) ==> CodeAt(w.f, p, code) && r == p + |code|)
    && Reaches(w.f, Text(IfEnd(n)), after) && (!hasElse ==> Silent(w.f, r, after))
  }

  ghost predicate IsCode(cfg: Config, n: nat, i: nat, conds: seq<Expr>, bodies: seq<seq<Line>>, hasElse: bool,
                         code: seq<Line>)
    requires |conds| == |bodies| && i <= |conds|
  {
    code == BranchesCode(cfg, n, i, conds, bodies, hasElse)
  }

  lemma BranchesUnfold(cfg: Config, n: nat, i: nat, conds: seq<Expr>, bodies: seq<seq<Line>>, hasElse: bool)
    requires |conds| == |bodies| && i < |conds|
    ensures BranchesCode(cfg, n, i, conds, bodies, hasElse) ==
            BranchCode(cfg, n, i, conds[i], bodies[i], EndOf(n, i, |conds|, hasElse)) +
            BranchesCode(cfg, n, i + 1, conds, bodies, hasElse)
    ensures i + 1 == |conds| ==> BranchesCode(cfg, n, i + 1, conds, bodies, hasElse) == []
  {
  }

  lemma IfUnfold(cfg: Config, w: Site, n: nat, i: nat, conds: seq<Expr>, bodies: seq<seq<Line>>, hasElse: bool,
                 p: nat, r: nat, after: nat) returns (end: Option<Gen>, m: nat)
    requires |conds| == |bodies| && i < |conds| && IfAt(cfg, w, n, i, conds, bodies, hasElse, p, r, after)
    ensures end == EndOf(n, i, |conds|, hasElse)
    ensures var code := BranchCode(cfg, n, i, conds[i], bodies[i], end);
            CodeAt(w.f, p, code) && m == p + |code| && ExitAt(w.f, EndLabel(end), m, after)
    ensures IfAt(cfg, w, n, i + 1, conds, bodies, hasElse, m, r, after)
  {
    end := EndOf(n, i, |conds|, hasElse);
    var code := BranchCode(cfg, n, i, conds[i], bodies[i], end);
    m := p + |code|;
    BranchesUnfold(cfg, n, i, conds, bodies, hasElse);
    assert IsCode(cfg, n, i, conds, bodies, hasElse, BranchesCode(cfg, n, i, conds, bodies, hasElse));
    SplitIf(w, n, hasElse, end, p, m, r, after, code, BranchesCode(cfg, n, i + 1, conds, bodies, hasElse));
  }

  /** The code of one branch, and that of the others. */
  lemma SplitIf(w: Site, n: nat, hasElse: bool, end: Option<Gen>, p: nat, m: nat, r: nat, after: nat, code: seq<Line>,
                rest: seq<Line>)
    requires CodeAt(w.f, p, code + rest) && m == p + |code| && r == p + |code + rest|
    requires Reaches(w.f, Text(IfEnd(n)), after) && (!hasElse ==> Silent(w.f, r, after))
    requires end == None || end == Some(IfEnd(n))
    requires end == None ==> !hasElse && rest == []
    ensures CodeAt(w.f, p, code) && CodeAt(w.f, m, rest) && r == m + |rest| && ExitAt(w.f, EndLabel(end), m, after)
  {
    CodeAtAppend(w.f, p, code, rest);
  }

  /** The blocks and conditions of an if, and its code. */
  ghost predicate BranchesOf(cfg: Config, own: iset<string>, branches: seq<Branch>, cs: seq<Ctr>, lp: Option<nat>,
                             n: nat, conds: seq<Expr>, bodies: seq<seq<Line>>, hasElse: bool) {
    && |branches| == |cs| == |conds| == |bodies|
    && forall i {:trigger BranchOf(cfg, own, branches[i], cs[i], lp, conds[i], bodies[i],
                                   EndOf(n, i, |conds|, hasElse))} ::
         0 <= i < |branches| ==>
           BranchOf(cfg, own, branches[i], cs[i], lp, conds[i], bodies[i], EndOf(n, i, |conds|, hasElse))
  }

  lemma BranchesAreOf(cfg: Config, own: iset<string>, branches: seq<Branch>, c: Ctr, lp: Option<nat>, n: nat,
                      hasElse: bool) returns (cs: seq<Ctr>)
    requires FaithfulBodies(cfg, own, branches, c, lp)
    requires FaithfulBranches(cfg, n, Conds(cfg, branches), LowerBodies(cfg, branches, c, lp).0, hasElse)
    ensures BranchesOf(cfg, own, branches, cs, lp, n, Conds(cfg, branches), LowerBodies(cfg, branches, c, lp).0,
                       hasElse)
  {
    cs := seq(|branches|, i requires 0 <= i < |branches| => BranchCtr(cfg, branches, i, c, lp));
    var conds, bodies := Conds(cfg, branches), LowerBodies(cfg, branches, c, lp).0;
    forall i | 0 <= i < |branches|
      ensures BranchOf(cfg, own, branches[i], cs[i], lp, conds[i], bodies[i], EndOf(n, i, |conds|, hasElse))
    {
      BodiesAt(cfg, own, branches, i, c, lp);
      assert FaithfulBranch(cfg, conds[i], bodies[i], EndOf(n, i, |conds|, hasElse));
    }
  }

  lemma {:induction false} BranchesStand(cfg: Config, w: Site, branches: seq<Branch>, cs: seq<Ctr>, lp: Option<nat>,
                                         n: nat, i: nat, conds: seq<Expr>,
                                         bodies: seq<seq<Line>>, hasElse: bool, p: nat, r: nat, after: nat)
    requires Lowers(cfg, w) && BranchesOf(cfg, w.user, branches, cs, lp, n, conds, bodies, hasElse) && i <= |branches|
    requires IfAt(cfg, w, n, i, conds, bodies, hasElse, p, r, after)
    ensures BranchesAt(w, branches[i..], ExitsOf(lp), p, r, after)
    decreases branches, 1, |branches| - i, 1
  {
    if i < |branches| {
      MoreBranchesStand(cfg, w, branches, cs, lp, n, i, conds, bodies, hasElse, p, r, after);
    } else {
      NoBranches(cfg, w, branches, lp, n, conds, bodies, hasElse, p, r, after);
    }
  }

  lemma {:induction false} MoreBranchesStand(cfg: Config, w: Site, branches: seq<Branch>, cs: seq<Ctr>,
                                             lp: Option<nat>, n: nat, i: nat, conds: seq<Expr>,
                                             bodies: seq<seq<Line>>, hasElse: bool, p: nat, r: nat, after: nat)
    requires Lowers(cfg, w) && BranchesOf(cfg, w.user, branches, cs, lp, n, conds, bodies, hasElse) && i < |branches|
    requires IfAt(cfg, w, n, i, conds, bodies, hasElse, p, r, after)
    ensures BranchesAt(w, branches[i..], ExitsOf(lp), p, r, after)
    decreases branches, 1, |branches| - i, 0
  {
    var m := OneBranchStands(cfg, w, branches, cs, lp, n, i, conds, bodies, hasElse, p, r, after);
    BranchesStand(cfg, w, branches, cs, lp, n, i + 1, conds, bodies, hasElse, m, r, after);
    BranchesJoin(w, branches, i, ExitsOf(lp), p, m, r, after);
  }

  lemma NoBranches(cfg: Config, w: Site, branches: seq<Branch>, lp: Option<nat>, n: nat, conds: seq<Expr>,
                   bodies: seq<seq<Line>>, hasElse: bool, p: nat, r: nat, after: nat)
    requires |branches| == |conds| == |bodies| && IfAt(cfg, w, n, |conds|, conds, bodies, hasElse, p, r, after)
    ensures BranchesAt(w, branches[|branches|..], ExitsOf(lp), p, r, after)
  {
    assert IsCode(cfg, n, |conds|, conds, bodies, hasElse, []);
  }

  lemma {:induction false} OneBranchStands(cfg: Config, w: Site, branches: seq<Branch>, cs: seq<Ctr>, lp: Option<nat>,
                                           n: nat, i: nat, conds: seq<Expr>,
                                           bodies: seq<seq<Line>>, hasElse: bool, p: nat, r: nat, after: nat)
      returns (m: nat)
    requires Lowers(cfg, w) && BranchesOf(cfg, w.user, branches, cs, lp, n, conds, bodies, hasElse) && i < |branches|
    requires IfAt(cfg, w, n, i, conds, bodies, hasElse, p, r, after)
    ensures BranchAt(w, branches[i], ExitsOf(lp), p, m, after) &&
            IfAt(cfg, w, n, i + 1, conds, bodies, hasElse, m, r, after)
    decreases branches, 0, 0
  {
    var end;
    end, m := IfUnfold(cfg, w, n, i, conds, bodies, hasElse, p, r, after);
    assert BranchOf(cfg, w.user, branches[i], cs[i], lp, conds[i], bodies[i], EndOf(n, i, |conds|, hasElse));
    BranchStands(cfg, w, branches[i], cs[i], lp, n, i, conds[i], bodies[i], end, p, m, after);
  }

  lemma {:induction false} AllBranchesStand(cfg: Config, w: Site, branches: seq<Branch>, c: Ctr, lp: Option<nat>,
                                            n: nat, bodies: seq<seq<Line>>, hasElse: bool, p: nat, r: nat, after: nat)
    requires Lowers(cfg, w) && FaithfulBodies(cfg, w.user, branches, c, lp) &&
             LowerBodies(cfg, branches, c, lp).0 == bodies
    requires FaithfulBranches(cfg, n, Conds(cfg, branches), bodies, hasElse)
    requires IfAt(cfg, w, n, 0, Conds(cfg, branches), bodies, hasElse, p, r, after)
    ensures BranchesAt(w, branches[0..], ExitsOf(lp), p, r, after)
    decreases branches, 2, 0
  {
    var cs := BranchesAreOf(cfg, w.user, branches, c, lp, n, hasElse);
    BranchesStand(cfg, w, branches, cs, lp, n, 0, Conds(cfg, branches), bodies, hasElse, p, r, after);
  }

  lemma IfCodeAt(cfg: Config, w: Site, n: nat, conds: seq<Expr>, bodies: seq<seq<Line>>, hasElse: bool, els: seq<Line>,
                 p: nat, after: nat) returns (r: nat)
    requires FindsAll(w.f) && |conds| == |bodies| && (!hasElse ==> els == [])
    requires CodeAt(w.f, p, IfCode(cfg, n, conds, bodies, hasElse, els))
    requires after == p + |IfCode(cfg, n, conds, bodies, hasElse, els)|
    ensures IfAt(cfg, w, n, 0, conds, bodies, hasElse, p, r, after)
    ensures CodeAt(w.f, r, els) && Silent(w.f, r + |els|, after)
  {
    var code := BranchesCode(cfg, n, 0, conds, bodies, hasElse);
    r := p + |code|;
    IfTail(w.f, n, p, code, els);
  }

  lemma {:induction false} ElseStands(cfg: Config, w: Site, els: Else, c: Ctr, lp: Option<nat>, p: nat, after: nat,
                                      code: seq<Line>)
    requires Lowers(cfg, w) && FaithfulElse(cfg, w.user, els, c, lp) && code == LowerElse(cfg, els, c, lp).code
    requires CodeAt(w.f, p, code) && Silent(w.f, p + |code|, after)
    ensures ElseAt(w, els, ExitsOf(lp), p, after)
    decreases els, 1, 0
  {
    if els.ElseBlock? {
      ListStands(cfg, w, els.es, c, lp, p, p + |code|, code);
    }
  }

  lemma {:induction false} WhileStands(cfg: Config, w: Site, e: Element, c: Ctr, lp: Option<nat>, n: nat,
                                       body: seq<Line>, p: nat, q: nat)
    requires Lowers(cfg, w) && e.While? && FineAsCondition(cfg.d, LoopCond(cfg, e.cond)) &&
             Faithful(cfg, w.user, e.body, c, Some(n))
    requires LowerList(cfg, e.body, c, Some(n)).code == body
    requires CodeAt(w.f, p, WhileCode(cfg, n, e.cond, body)) && q == p + |WhileCode(cfg, n, e.cond, body)|
    ensures ElemAt(w, e, ExitsOf(lp), p, q)
    decreases e, 1, 0
  {
    var x, m := WhileCodeAt(cfg, w, n, e.cond, body, p, q);
    ListStands(cfg, w, e.body, c, Some(n), p + 1, m, body);
    LoopJoin(w, e, x, ExitsOf(lp), p, m, q);
  }

  lemma WhileCodeAt(cfg: Config, w: Site, n: nat, cond: Expr, body: seq<Line>, p: nat, q: nat)
      returns (x: Exits, m: nat)
    requires Lowers(cfg, w) && FineAsCondition(cfg.d, LoopCond(cfg, cond)) &&
             CodeAt(w.f, p, WhileCode(cfg, n, cond, body))
    requires q == p + |WhileCode(cfg, n, cond, body)|
    ensures ExitsOf(Some(n)) == Some(x) && m == p + 1 + |body|
    ensures TestAt(w, cond, x.done, p) && CodeAt(w.f, p + 1, body) && Silent(w.f, m, p)
    ensures Find(w.f, x.again) == Some(p) && Reaches(w.f, x.done, q)
  {
    LoopPlaces(cfg, w.f, n, cond, body, p);
    HeadStands(cfg, w, n, cond, p);
    x, m := ExitsOf(Some(n)).value, p + 1 + |body|;
  }

  lemma IfLowered(cfg: Config, own: iset<string>, e: Element, c: Ctr, lp: Option<nat>)
    returns (bodies: seq<seq<Line>>, c1: Ctr, n: nat, els: seq<Line>)
    requires e.MultiIf? && FaithfulElem(cfg, own, e, c, lp)
    ensures e.branches != [] && (bodies, c1) == LowerBodies(cfg, e.branches, c, lp)
    ensures els == LowerElse(cfg, e.els, c1, lp).code
    ensures FaithfulBodies(cfg, own, e.branches, c, lp) && FaithfulElse(cfg, own, e.els, c1, lp)
    ensures FaithfulBranches(cfg, n, Conds(cfg, e.branches), bodies, e.els.ElseBlock?)
    ensures LowerElem(cfg, e, c, lp).code == IfCode(cfg, n, Conds(cfg, e.branches), bodies, e.els.ElseBlock?, els)
  {
    bodies, c1 := LowerBodies(cfg, e.branches, c, lp).0, LowerBodies(cfg, e.branches, c, lp).1;
    var r := LowerElse(cfg, e.els, c1, lp);
    n, els := r.ctr.ifs, r.code;
  }

  lemma WhileLowered(cfg: Config, own: iset<string>, e: Element, c: Ctr, lp: Option<nat>)
    returns (c1: Ctr, n: nat, body: seq<Line>)
    requires e.While? && FaithfulElem(cfg, own, e, c, lp)
    ensures FineAsCondition(cfg.d, LoopCond(cfg, e.cond)) && Faithful(cfg, own, e.body, c1, Some(n))
    ensures body == LowerList(cfg, e.body, c1, Some(n)).code
    ensures LowerElem(cfg, e, c, lp).code == WhileCode(cfg, n, e.cond, body)
  {
    c1 := c.(loops := c.loops + 1);
    n := c1.loops;
    body := LowerList(cfg, e.body, c1, Some(n)).code;
  }

  lemma PlainLowered(cfg: Config, own: iset<string>, e: Element, c: Ctr, lp: Option<nat>)
    requires e.Plain? && FaithfulElem(cfg, own, e, c, lp)
    ensures LowerElem(cfg, e, c, lp).code == [LowerLine(cfg, e.line, lp)] && OwnTargets(own, e.line.stmts)
  {
  }

  /** The branches of an if stand, and where its else block is. */
  lemma {:induction false} BranchesOfIfStand(cfg: Config, w: Site, e: Element, c: Ctr, lp: Option<nat>, p: nat, q: nat,
                                             code: seq<Line>) returns (c1: Ctr, els: seq<Line>, r: nat)
    requires Lowers(cfg, w) && e.MultiIf? && FaithfulElem(cfg, w.user, e, c, lp) &&
             LowerElem(cfg, e, c, lp).code == code
    requires CodeAt(w.f, p, code) && q == p + |code|
    ensures e.branches != [] && BranchesAt(w, e.branches[0..], ExitsOf(lp), p, r, q)
    ensures FaithfulElse(cfg, w.user, e.els, c1, lp) && els == LowerElse(cfg, e.els, c1, lp).code
    ensures CodeAt(w.f, r, els) && Silent(w.f, r + |els|, q)
    decreases e, 1, 0
  {
    var bodies, n;
    bodies, c1, n, els := IfLowered(cfg, w.user, e, c, lp);
    r := IfCodeAt(cfg, w, n, Conds(cfg, e.branches), bodies, e.els.ElseBlock?, els, p, q);
    AllBranchesStand(cfg, w, e.branches, c, lp, n, bodies, e.els.ElseBlock?, p, r, q);
  }

  lemma {:induction false} IfStands(cfg: Config, w: Site, e: Element, c: Ctr, lp: Option<nat>, p: nat, q: nat,
                                    code: seq<Line>)
    requires Lowers(cfg, w) && e.MultiIf? && FaithfulElem(cfg, w.user, e, c, lp) &&
             LowerElem(cfg, e, c, lp).code == code
    requires CodeAt(w.f, p, code) && q == p + |code|
    ensures ElemAt(w, e, ExitsOf(lp), p, q)
    decreases e, 1, 1
  {
    var c1, els, r := BranchesOfIfStand(cfg, w, e, c, lp, p, q, code);
    ElseStands(cfg, w, e.els, c1, lp, r, q, els);
    IfJoin(w, e, ExitsOf(lp), p, r, q);
  }

  lemma {:induction false} ElemStands(cfg: Config, w: Site, e: Element, c: Ctr, lp: Option<nat>, p: nat, q: nat,
                                      code: seq<Line>)
    requires Lowers(cfg, w) && FaithfulElem(cfg, w.user, e, c, lp) && LowerElem(cfg, e, c, lp).code == code
    requires CodeAt(w.f, p, code) && q == p + |code|
    ensures ElemAt(w, e, ExitsOf(lp), p, q)
    decreases e, 2, 0
  {
    match e
    case Plain(line) =>
      PlainLowered(cfg, w.user, e, c, lp);
      CodeAtOne(w.f, p, LowerLine(cfg, line, lp));
      PlainStands(cfg, w, line, lp, p);
    case MultiIf(_, _) =>
      IfStands(cfg, w, e, c, lp, p, q, code);
    case While(_, _) =>
      var c1, n, body := WhileLowered(cfg, w.user, e, c, lp);
      WhileStands(cfg, w, e, c1, lp, n, body, p, q);
  }

  lemma ListCode(cfg: Config, own: iset<string>, es: seq<Element>, c: Ctr, lp: Option<nat>)
    returns (a: seq<Line>, c': Ctr, rest: seq<Line>)
    requires es != [] && Faithful(cfg, own, es, c, lp)
    ensures FaithfulElem(cfg, own, es[0], c, lp) && Faithful(cfg, own, es[1..], c', lp)
    ensures a == LowerElem(cfg, es[0], c, lp).code && rest == LowerList(cfg, es[1..], c', lp).code
    ensures LowerList(cfg, es, c, lp).code == a + rest
  {
    var e := LowerElem(cfg, es[0], c, lp);
    a, c' := e.code, e.ctr;
    rest := LowerList(cfg, es[1..], c', lp).code;
  }

  /** Where the code of the first element and that of the others are. */
  lemma SplitCode(f: seq<Line>, p: nat, q: nat, code: seq<Line>, a: seq<Line>, rest: seq<Line>) returns (m: nat)
    requires code == a + rest && CodeAt(f, p, code) && q == p + |code|
    ensures CodeAt(f, p, a) && m == p + |a| && CodeAt(f, m, rest) && q == m + |rest|
  {
    m := p + |a|;
    CodeAtAppend(f, p, a, rest);
  }

  /** The code of a list of elements stands where it is. */
  lemma {:induction false} ListStands(cfg: Config, w: Site, es: seq<Element>, c: Ctr, lp: Option<nat>, p: nat, q: nat,
                                      code: seq<Line>)
    requires Lowers(cfg, w) && Faithful(cfg, w.user, es, c, lp) && code == LowerList(cfg, es, c, lp).code
    requires CodeAt(w.f, p, code) && q == p + |code|
    ensures ListAt(w, es, ExitsOf(lp), p, q)
    decreases es, 0, 1
  {
    if es != [] {
      var m, c', rest := FirstStands(cfg, w, es, c, lp, p, q, code);
      ListStands(cfg, w, es[1..], c', lp, m, q, rest);
      ListJoin(w, es, ExitsOf(lp), p, m, q);
    }
  }

  lemma {:induction false} FirstStands(cfg: Config, w: Site, es: seq<Element>, c: Ctr, lp: Option<nat>, p: nat, q: nat,
                                       code: seq<Line>)
      returns (m: nat, c': Ctr, rest: seq<Line>)
    requires es != [] && Lowers(cfg, w) && Faithful(cfg, w.user, es, c, lp) && code == LowerList(cfg, es, c, lp).code
    requires CodeAt(w.f, p, code) && q == p + |code|
    ensures ElemAt(w, es[0], ExitsOf(lp), p, m) && Faithful(cfg, w.user, es[1..], c', lp)
    ensures rest == LowerList(cfg, es[1..], c', lp).code && CodeAt(w.f, m, rest) && q == m + |rest|
    decreases es, 0, 0
  {
    var a;
    a, c', rest := ListCode(cfg, w.user, es, c, lp);
    m := SplitCode(w.f, p, q, code, a, rest);
    ElemStands(cfg, w, es[0], c, lp, p, m, a);
  }

  // ---- whole programs ----

  ghost function SiteOf(cfg: Config, prog: seq<Element>): Site {
    Site(cfg.d, LowerProgram(cfg, prog), OwnLabels(cfg, prog))
  }

  lemma LabelsFound(cfg: Config, prog: seq<Element>)
    requires Lowerable(cfg, prog)
    ensures FindsAll(LowerProgram(cfg, prog))
  {
    var f := LowerProgram(cfg, prog);
    forall q: nat | q < |f| ensures FindsAt(f, q) {
      if f[q].lbl != "" {
        assert LabelCount(LowerProgram(cfg, prog), f[q].lbl) <= 1;
        FindOnly(f, f[q].lbl, q);
      }
    }
  }

  lemma ProgramStands(cfg: Config, prog: seq<Element>)
    requires Lowerable(cfg, prog) && cfg.Standard() && cfg.d.ShowsExactly()
    ensures Stands(SiteOf(cfg, prog), prog)
  {
    var w := SiteOf(cfg, prog);
    LabelsFound(cfg, prog);
    WholeCodeAt(w.f);
    ListStands(cfg, w, prog, Ctr(0, 0), None, 0, |w.f|, w.f);
    forall l: LabelName | l in w.user && SFind(prog, l, Stop).None? ensures Find(w.f, l).None? {
      SFindCounts(prog, l, Stop);
      FindNothing(w.f, l);
    }
  }

  /** A label is found if and only if it is there. */
  lemma {:induction false} SFindCounts(es: seq<Element>, l: LabelName, k: Kont)
    ensures SFind(es, l, k).Some? <==> SrcCount(es, l) > 0
    decreases es, 0
  {
    if es != [] {
      SFindInCounts(es[0], es[1..], l, k);
      SFindCounts(es[1..], l, k);
    }
  }

  lemma {:induction false} SFindInCounts(e: Element, rest: seq<Element>, l: LabelName, k: Kont)
    ensures SFindIn(e, rest, l, k).Some? <==> SrcCountElem(e, l) > 0
    decreases e, 2
  {
    match e
    case Plain(_) =>
    case MultiIf(branches, els) =>
      SFindBranchesCounts(branches, l, Then(rest, k));
      if els.ElseBlock? {
        SFindCounts(els.es, l, Then(rest, k));
      }
    case While(_, body) => SFindCounts(body, l, Loop(e, Then(rest, k)));
  }

  lemma {:induction false} SFindBranchesCounts(branches: seq<Branch>, l: LabelName, k: Kont)
    ensures SFindBranches(branches, l, k).Some? <==> SrcCountBranches(branches, l) > 0
    decreases branches, 1
  {
    if branches != [] {
      SFindCounts(branches[0].body, l, k);
      SFindBranchesCounts(branches[1..], l, k);
    }
  }

  /** Lowering: on every run without errors, the code makes the same writes as the program with its nested ifs and
      loops; and it fails whenever the program fails. */
  lemma LoweringEquivalent(env: Env, cfg: Config, prog: seq<Element>, st: State)
    requires Lowerable(cfg, prog) && cfg.Standard() && cfg.d.ShowsExactly() && env.d == cfg.d
    ensures EquivalentUnlessError(Source(env, prog, st), Flat(env, LowerProgram(cfg, prog), st))
  {
    ProgramStands(cfg, prog);
    Simulation.StandingEquivalent(env, SiteOf(cfg, prog), prog, st);
  }
}
