/** What the passes of the compiler leave behind (pkg/nolol/converter_gotos.go, pkg/nolol/converter.go). */
module Passes {
  import opened Ast
  import opened Operations
  import opened Semantics
  import opened Machine
  import opened Nolol
  import opened Labels
  import opened Rewriting
  import opened Folding
  import opened Inversion
  import opened Merging
  import opened Packing
  import opened Gotos
  import opened Numbering
  import opened Lowering
  import opened Labelling
  import opened Placing
  import opened Compiler
  import opened Lengths

  // ---- no goto behind a goto ----

  /** Nowhere in the statements, nor in the blocks nested in them, a goto comes directly behind a goto. */
  predicate NoDoubles(ss: seq<Stmt>)
    decreases ss, 0
  {
    ss == [] ||
    (NoDoublesIn(ss[0]) && (|ss| > 1 ==> !(ss[0].GotoLabel? && ss[1].GotoLabel?)) && NoDoubles(ss[1..]))
  }

  predicate NoDoublesIn(s: Stmt)
    decreases s, 1
  {
    s.If? ==> NoDoubles(s.thn) && NoDoubles(s.els)
  }

  predicate EndsInGoto(ss: seq<Stmt>) {
    ss != [] && ss[|ss| - 1].GotoLabel?
  }

  lemma {:induction false} DedupStmtNoDoubles(s: Stmt)
    ensures NoDoublesIn(DedupStmt(s)) && DedupStmt(s).GotoLabel? == s.GotoLabel?
    decreases s, 1
  {
    if s.If? {
      DedupNoDoubles(s.thn, false);
      DedupNoDoubles(s.els, false);
    }
  }

  lemma {:induction false} DedupNoDoubles(ss: seq<Stmt>, last: bool)
    ensures var r := DedupStmts(ss, last);
            && NoDoubles(r.stmts) && (last && r.stmts != [] ==> !r.stmts[0].GotoLabel?)
            && r.last == if r.stmts == [] then last else EndsInGoto(r.stmts)
    decreases ss, 0
  {
    if ss != [] {
      var r := DedupStmts(ss[1..], ss[0].GotoLabel?);
      DedupNoDoubles(ss[1..], ss[0].GotoLabel?);
      DedupStmtNoDoubles(ss[0]);
      assert ([DedupStmt(ss[0])] + r.stmts)[1..] == r.stmts;
    }
  }

  /** Line `j` ends in a goto, and nothing comes between it and line `i`. */
  ghost predicate GotoAhead(p: seq<Line>, j: nat, i: nat) {
    && j < i < |p| && EndsInGoto(p[j].stmts) && p[i].lbl == ""
    && forall k :: j < k < i ==> p[k].stmts == [] && p[k].lbl == ""
  }

  lemma {:induction false} GotoAheadSeen(p: seq<Line>, j: nat, i: nat)
    requires |p| == |Dedup(p)| && GotoAhead(Dedup(p), j, i)
    ensures GotoBefore(p, i)
    decreases i
  {
    var q := Dedup(p);
    DedupNoDoubles(p[i - 1].stmts, GotoBefore(p, i - 1));
    if i - 1 > j {
      assert q[i - 1].stmts == [];
      GotoAheadSeen(p, j, i - 1);
    }
  }

  /** After the pass, no goto comes directly behind a goto, neither in a line nor across lines. */
  lemma DedupLeavesNoDoubles(p: seq<Line>, i: nat)
    requires i < |p|
    ensures NoDoubles(Dedup(p)[i].stmts)
    ensures (exists j: nat :: GotoAhead(Dedup(p), j, i)) && Dedup(p)[i].stmts != [] ==> !Dedup(p)[i].stmts[0].GotoLabel?
  {
    DedupNoDoubles(p[i].stmts, GotoBefore(p, i));
    if j: nat :| GotoAhead(Dedup(p), j, i) {
      GotoAheadSeen(p, j, i);
    }
  }

  function WithoutGotos(ss: seq<Stmt>): seq<Stmt> {
    if ss == [] then [] else (if ss[0].GotoLabel? then [] else [ss[0]]) + WithoutGotos(ss[1..])
  }

  /** Nothing but gotos is deleted. */
  lemma {:induction false} DedupKeepsOthers(ss: seq<Stmt>, last: bool)
    ensures WithoutGotos(DedupStmts(ss, last).stmts) == TidyStmts(WithoutGotos(ss))
    decreases |ss|
  {
    if ss != [] {
      var r := DedupStmts(ss[1..], ss[0].GotoLabel?).stmts;
      DedupKeepsOthers(ss[1..], ss[0].GotoLabel?);
      DedupStmtNoDoubles(ss[0]);
      assert ([DedupStmt(ss[0])] + r)[1..] == r;
      assert [] + WithoutGotos(r) == WithoutGotos(r) && [] + WithoutGotos(ss[1..]) == WithoutGotos(ss[1..]);
      assert ([ss[0]] + WithoutGotos(ss[1..]))[1..] == WithoutGotos(ss[1..]);
    }
  }

  // ---- where gotos are redirected to ----

  /** A goto to `l` meets a goto to `t` first: behind the first line with that label, possibly behind empty lines to
      which lines may be appended. */
  ghost predicate Meets(p: seq<Line>, l: LabelName, t: LabelName) {
    exists i: nat, j: nat {:trigger MeetsAt(p, l, t, i, j)} :: MeetsAt(p, l, t, i, j)
  }

  ghost predicate MeetsAt(p: seq<Line>, l: LabelName, t: LabelName, i: nat, j: nat) {
    && i <= j < |p| && p[i].lbl == l && (forall k :: 0 <= k < i ==> p[k].lbl != l)
    && (forall k :: i <= k < j ==> p[k].stmts == [] && !p[k].eol)
    && p[j].stmts != [] && p[j].stmts[0] == GotoLabel(t)
  }

  lemma {:induction false} FirstGotoAt(p: seq<Line>, i: nat, t: LabelName) returns (j: nat)
    requires FirstGoto(p, i) == Some(t)
    ensures i <= j < |p| && (forall k :: i <= k < j ==> p[k].stmts == [] && !p[k].eol)
    ensures p[j].stmts != [] && p[j].stmts[0] == GotoLabel(t)
    decreases |p| - i
  {
    if p[i].stmts != [] {
      j := i;
    } else {
      j := FirstGotoAt(p, i + 1, t);
    }
  }

  lemma {:induction false} FirstGotoFound(p: seq<Line>, i: nat, j: nat)
    requires i <= j < |p| && (forall k :: i <= k < j ==> p[k].stmts == [] && !p[k].eol)
    requires p[j].stmts != [] && p[j].stmts[0].GotoLabel?
    ensures FirstGoto(p, i) == Some(p[j].stmts[0].target)
    decreases j - i
  {
    if i < j {
      FirstGotoFound(p, i + 1, j);
    }
  }

  lemma TargetIsMet(p: seq<Line>, l: LabelName, t: LabelName)
    ensures TargetGoto(p, l) == Some(t) <==> Meets(p, l, t)
  {
    FindFirst(p, l);
    if TargetGoto(p, l) == Some(t) {
      var j := FirstGotoAt(p, Find(p, l).value, t);
      assert MeetsAt(p, l, t, Find(p, l).value, j);
    }
    if i: nat, j: nat :| MeetsAt(p, l, t, i, j) {
      assert Find(p, l) == Some(i);
      FirstGotoFound(p, i, j);
    }
  }

  /** A goto to `l` becomes a goto to the goto's target that it meets, and stays if it meets none. */
  ghost predicate RedirectedTo(p: seq<Line>, l: LabelName, l': LabelName) {
    Meets(p, l, l') || (l' == l && forall t: LabelName :: !Meets(p, l, t))
  }

  ghost predicate Redirected(p: seq<Line>, s: Stmt, s': Stmt)
    decreases s, 1
  {
    match s
    case GotoLabel(l) => s'.GotoLabel? && RedirectedTo(p, l, s'.target)
    case If(c, t, e) => s'.If? && s'.cond == c && AllRedirected(p, t, s'.thn) && AllRedirected(p, e, s'.els)
    case _ => s' == s
  }

  ghost predicate AllRedirected(p: seq<Line>, ss: seq<Stmt>, ss': seq<Stmt>)
    decreases ss, 0
  {
    |ss| == |ss'| && (ss == [] || (Redirected(p, ss[0], ss'[0]) && AllRedirected(p, ss[1..], ss'[1..])))
  }

  lemma {:induction false} RedirectIsRedirected(p: seq<Line>, s: Stmt)
    ensures Redirected(p, s, RedirectStmt(p, s))
    decreases s, 1
  {
    match s
    case GotoLabel(l) =>
      TargetIsMet(p, l, Redirect(p, l));
      forall t: LabelName | TargetGoto(p, l).None? ensures !Meets(p, l, t) {
        TargetIsMet(p, l, t);
      }
    case If(_, t, e) =>
      RedirectAllRedirected(p, t);
      RedirectAllRedirected(p, e);
    case _ =>
  }

  lemma {:induction false} RedirectAllRedirected(p: seq<Line>, ss: seq<Stmt>)
    ensures AllRedirected(p, ss, RedirectStmts(p, ss))
    decreases ss, 0
  {
    if ss != [] {
      RedirectIsRedirected(p, ss[0]);
      RedirectAllRedirected(p, ss[1..]);
      assert RedirectStmts(p, ss)[1..] == RedirectStmts(p, ss[1..]);
    }
  }

  /** The program when the pass has come to statement `j` of line `i`: what is before it is changed already. */
  function Halfway(p: seq<Line>, q: seq<Line>, i: nat, j: nat): seq<Line>
    requires i < |p| == |q| && j <= |p[i].stmts| && j <= |q[i].stmts|
  {
    q[..i] + [p[i].(stmts := q[i].stmts[..j] + p[i].stmts[j..])] + p[i + 1..]
  }

  ghost predicate LineRedirected(p: seq<Line>, q: seq<Line>, i: nat)
    requires i < |p| == |q|
  {
    && q[i] == p[i].(stmts := q[i].stmts) && |q[i].stmts| == |p[i].stmts|
    && forall j: nat {:trigger Halfway(p, q, i, j)} ::
         j < |p[i].stmts| ==> Redirected(Halfway(p, q, i, j), p[i].stmts[j], q[i].stmts[j])
  }

  lemma {:induction false} RedirectLineKeeps(p: seq<Line>, i: nat, j: nat)
    requires i < |p| && j <= |p[i].stmts|
    ensures var q := RedirectLine(p, i, j);
            && |q[i].stmts| == |p[i].stmts| && q == p[i := p[i].(stmts := q[i].stmts)]
            && q[i].stmts[..j] == p[i].stmts[..j]
    decreases |p[i].stmts| - j
  {
    if j < |p[i].stmts| {
      var p' := RedirectAt(p, i, j);
      RedirectLineKeeps(p', i, j + 1);
      var q := RedirectLine(p', i, j + 1);
      assert q[i].stmts[..j] == q[i].stmts[..j + 1][..j] == p'[i].stmts[..j + 1][..j] == p[i].stmts[..j];
    } else {
      assert p[i := p[i].(stmts := p[i].stmts)] == p;
    }
  }

  /** Statement `k` is redirected by the program in which the statements before it are changed. */
  lemma {:induction false} RedirectLineAt(p: seq<Line>, i: nat, j: nat, k: nat)
    requires i < |p| && j <= k < |p[i].stmts|
    ensures var q := RedirectLine(p, i, j);
            && |q| == |p| && |q[i].stmts| == |p[i].stmts|
            && Redirected(p[i := p[i].(stmts := q[i].stmts[..k] + p[i].stmts[k..])], p[i].stmts[k], q[i].stmts[k])
    decreases k - j
  {
    var q := RedirectLine(p, i, j);
    var p' := RedirectAt(p, i, j);
    RedirectLineKeeps(p, i, j);
    RedirectLineKeeps(p', i, j + 1);
    assert q == RedirectLine(p', i, j + 1);
    if j < k {
      RedirectLineAt(p', i, j + 1, k);
      assert p'[i].stmts[k..] == p[i].stmts[k..] && p'[i].stmts[k] == p[i].stmts[k];
      assert p'[i := p'[i].(stmts := q[i].stmts[..k] + p'[i].stmts[k..])] ==
             p[i := p[i].(stmts := q[i].stmts[..k] + p[i].stmts[k..])];
    } else {
      RedirectIsRedirected(p, p[i].stmts[j]);
      assert q[i].stmts[..j + 1] == p'[i].stmts[..j + 1];
      assert q[i].stmts[j] == q[i].stmts[..j + 1][j] == p'[i].stmts[j] == RedirectStmt(p, p[i].stmts[j]);
      assert q[i].stmts[..j] + p[i].stmts[j..] == p[i].stmts;
      assert p[i := p[i].(stmts := p[i].stmts)] == p;
    }
  }

  lemma {:induction false} ResolveKeepsBefore(p: seq<Line>, i: nat)
    requires i <= |p|
    ensures ResolveFrom(p, i)[..i] == p[..i]
    decreases |p| - i
  {
    if i < |p| {
      var p' := RedirectLine(p, i, 0);
      RedirectLineKeeps(p, i, 0);
      ResolveKeepsBefore(p', i + 1);
      assert ResolveFrom(p, i)[..i] == ResolveFrom(p', i + 1)[..i + 1][..i] == p'[..i + 1][..i] == p[..i];
    }
  }

  lemma {:induction false} ResolveAt(p: seq<Line>, i: nat, k: nat)
    requires i <= k < |p|
    ensures LineRedirected(p[..i] + p[i..], ResolveFrom(p, i), k)
    decreases k - i
  {
    var q, p' := ResolveFrom(p, i), RedirectLine(p, i, 0);
    RedirectLineKeeps(p, i, 0);
    ResolveKeepsBefore(p', i + 1);
    assert p[..i] + p[i..] == p;
    if i < k {
      ResolveAt(p', i + 1, k);
      assert p'[..i + 1] + p'[i + 1..] == p';
      assert p'[k] == p[k];
      forall j: nat | j < |p[k].stmts| ensures Redirected(Halfway(p, q, k, j), p[k].stmts[j], q[k].stmts[j]) {
        assert Halfway(p', q, k, j) == Halfway(p, q, k, j);
      }
    } else {
      assert q[i] == q[..i + 1][i] == p'[..i + 1][i] == p'[i];
      assert q[..i] == q[..i + 1][..i] == p'[..i + 1][..i] == p[..i];
      forall j: nat | j < |p[i].stmts| ensures Redirected(Halfway(p, q, i, j), p[i].stmts[j], q[i].stmts[j]) {
        RedirectLineAt(p, i, 0, j);
        assert Halfway(p, q, i, j) == p[i := p[i].(stmts := q[i].stmts[..j] + p[i].stmts[j..])];
      }
    }
  }

  /** The pass over goto chains: every goto is redirected, once, by what stands there when its turn comes. */
  lemma ChainsRedirected(p: seq<Line>, k: nat)
    requires k < |p|
    ensures LineRedirected(p, ResolveChains(p), k)
  {
    ResolveAt(p, 0, k);
    assert p[..0] + p[0..] == p;
  }

  // ---- the lines that are numbered ----

  /** The lines with statements, and those that say that nothing may be appended to them. */
  function NonEmpty(p: seq<Line>): seq<Line> {
    if p == [] then [] else (if p[0].stmts == [] && !p[0].eol then [] else [p[0]]) + NonEmpty(p[1..])
  }

  lemma {:induction false} NonEmptySnoc(p: seq<Line>, l: Line)
    ensures NonEmpty(p + [l]) == NonEmpty(p) + if l.stmts == [] && !l.eol then [] else [l]
  {
    if p == [] {
      assert [] + [l] == [l] && [l][1..] == [];
    } else {
      assert (p + [l])[0] == p[0] && (p + [l])[1..] == p[1..] + [l];
      NonEmptySnoc(p[1..], l);
      var first := if p[0].stmts == [] && !p[0].eol then [] else [p[0]];
      var last := if l.stmts == [] && !l.eol then [] else [l];
      assert NonEmpty(p + [l]) == first + (NonEmpty(p[1..]) + last);
      assert first + (NonEmpty(p[1..]) + last) == first + NonEmpty(p[1..]) + last;
    }
  }

  lemma {:induction false} NumberedFrom(p: seq<Line>, i: nat, acc: Numbered)
    requires i <= |p| && NumberFrom(p, i, acc).Some? && acc.lines == NonEmpty(p[..i])
    requires forall k :: 0 <= k < i && p[k].lbl != "" ==>
               p[k].lbl in acc.labels && acc.labels[p[k].lbl] == |NonEmpty(p[..k])| + 1
    ensures var q := NumberFrom(p, i, acc).value;
            && q.lines == NonEmpty(p)
            && forall k :: 0 <= k < |p| && p[k].lbl != "" ==>
                 p[k].lbl in q.labels && q.labels[p[k].lbl] == |NonEmpty(p[..k])| + 1
    decreases |p| - i
  {
    if i < |p| {
      assert p[..i + 1] == p[..i] + [p[i]];
      NonEmptySnoc(p[..i], p[i]);
      NumberedFrom(p, i + 1, Numbered(EnterLabel(acc.labels, p[i], |acc.lines| + 1),
                                      if Survives(p[i]) then acc.lines + [p[i]] else acc.lines));
    } else {
      assert p[..i] == p;
    }
  }

  /** The lines that are left are the non-empty ones, and a label has the number of the first one at or behind it. */
  lemma LabelsCountLines(p: seq<Line>)
    requires FindLabels(p).Some?
    ensures var q := FindLabels(p).value;
            && q.lines == NonEmpty(p)
            && forall k :: 0 <= k < |p| && p[k].lbl != "" ==>
                 p[k].lbl in q.labels && q.labels[p[k].lbl] == |NonEmpty(p[..k])| + 1
  {
    assert p[..0] == [] && NonEmpty([]) == [];
    NumberedFrom(p, 0, Numbered(map[], []));
  }

  // ---- the lowered program ----

  /** Nothing is left to be computed among the binary operators of the statements. */
  ghost predicate StmtComputed(d: Decimals, s: Stmt)
    decreases s, 1
  {
    match s
    case Assign(_, _, e) => NothingLeft(d, e, true)
    case If(c, t, e) => NothingLeft(d, c, true) && AllComputed(d, t) && AllComputed(d, e)
    case Goto(e) => NothingLeft(d, e, true)
    case _ => true
  }

  ghost predicate AllComputed(d: Decimals, ss: seq<Stmt>)
    decreases ss, 0
  {
    ss == [] || (StmtComputed(d, ss[0]) && AllComputed(d, ss[1..]))
  }

  lemma {:induction false} LoweredStmtComputed(cfg: Config, s: Stmt)
    requires cfg.Standard()
    ensures StmtComputed(cfg.d, RewriteStmt(cfg.binary, s))
    decreases s, 1
  {
    match s
    case Assign(_, _, e) =>
      assert cfg.StandardOn(e);
      FoldBinaryLeavesNothing(cfg.d, e);
    case If(c, t, e) =>
      assert cfg.StandardOn(c);
      FoldBinaryLeavesNothing(cfg.d, c);
      LoweredComputed(cfg, t);
      LoweredComputed(cfg, e);
    case Goto(e) =>
      assert cfg.StandardOn(e);
      FoldBinaryLeavesNothing(cfg.d, e);
    case _ =>
  }

  /** The statements of a line are computed as far as possible when they are lowered. */
  lemma {:induction false} LoweredComputed(cfg: Config, ss: seq<Stmt>)
    requires cfg.Standard()
    ensures AllComputed(cfg.d, RewriteStmts(cfg.binary, ss))
    decreases ss, 0
  {
    if ss != [] {
      LoweredStmtComputed(cfg, ss[0]);
      LoweredComputed(cfg, ss[1..]);
      assert RewriteStmts(cfg.binary, ss)[1..] == RewriteStmts(cfg.binary, ss[1..]);
    }
  }

  /** A loop whose condition is a constant other than 0, or can be computed to one, has no test. */
  lemma EndlessLoopUntested(cfg: Config, n: nat, cond: Expr, body: seq<Line>, st: State, x: real)
    requires cfg.Standard() && cfg.d.ShowsExactly() && !HasVariables(cond)
    requires Eval(cfg.d, cond, st) == Val(N(x), st) && x != 0.0
    ensures WhileCode(cfg, n, cond, body)[0].stmts == []
  {
    BinaryEval(cfg, cond, st);
    assert cfg.StandardOn(cond) && cfg.StandardOn(cfg.binary(cond));
    FoldBinaryNoVariables(cfg.d, cond);
    FoldEval(cfg.d, cfg.binary(cond), st);
    FoldsToConstant(cfg.d, cfg.binary(cond), st);
  }

  lemma {:induction false} FoldBinaryNoVariables(d: Decimals, e: Expr)
    requires !HasVariables(e)
    ensures !HasVariables(FoldBinary(d, e))
  {
    match e
    case Bin(_, l, r) =>
      FoldBinaryNoVariables(d, l);
      FoldBinaryNoVariables(d, r);
    case Un(_, a) => FoldBinaryNoVariables(d, a);
    case _ =>
  }

  /** A branch becomes a single line if and only if its block is, or can be merged to, at most one line without a label,
      and the line is short enough. */
  lemma InlinedIffPossible(cfg: Config, n: nat, i: nat, cond: Expr, body: seq<Line>, end: Option<Gen>, m: seq<Line>)
    requires Merge(cfg.lay, body) == Some(m) && m != []
    ensures var exit := if end.Some? then [GotoLabel(Text(end.value))] else [];
            var ss := [If(cond, DedupStmts(m[0].stmts + exit, false).stmts, [])];
            |BranchCode(cfg, n, i, cond, body, end)| == 1 <==>
            |m| == 1 && m[0].lbl == "" && cfg.lay.len(ss) <= cfg.lay.max
  {
    var exit := if end.Some? then [GotoLabel(Text(end.value))] else [];
    var s := If(cond, m[0].stmts + exit, []);
    assert m[0].stmts + [] == m[0].stmts && InlineStmts(m, end) == m[0].stmts + exit;
    assert [s][1..] == [] && DedupStmts([], false).stmts == [];
    assert DedupStmts([s], false).stmts == [DedupStmt(s)] + [];
    assert InlineIf(cond, m, end) == [If(cond, DedupStmts(m[0].stmts + exit, false).stmts, [])];
    assert InlineBranch(cfg, cond, body, end).None? ==>
             BranchCode(cfg, n, i, cond, body, end) == LongBranch(cfg, IfSkip(n, i), cond, Attempted(cfg, body), end);
  }

  // ---- break and continue outside of loops ----

  /** In a loop, break and continue may stand anywhere. */
  lemma {:induction false} StmtsPlacedInLoop(ss: seq<Stmt>)
    ensures JumpsPlaced(ss, true)
    decreases ss
  {
    if ss != [] {
      if ss[0].If? {
        StmtsPlacedInLoop(ss[0].thn);
        StmtsPlacedInLoop(ss[0].els);
      }
      StmtsPlacedInLoop(ss[1..]);
    }
  }

  lemma {:induction false} PlacedInLoop(es: seq<Element>)
    ensures Placed(es, true)
    decreases es, 0
  {
    if es != [] {
      match es[0] {
        case Plain(line) => StmtsPlacedInLoop(line.stmts);
        case MultiIf(branches, els) =>
          BranchesPlacedInLoop(branches);
          if els.ElseBlock? {
            PlacedInLoop(els.es);
          }
        case While(_, body) => PlacedInLoop(body);
      }
      PlacedInLoop(es[1..]);
    }
  }

  lemma {:induction false} BranchesPlacedInLoop(branches: seq<Branch>)
    ensures PlacedBranches(branches, true)
    decreases branches, 1
  {
    if branches != [] {
      PlacedInLoop(branches[0].body);
      BranchesPlacedInLoop(branches[1..]);
    }
  }

  lemma {:induction false} StrayStmt(a: seq<Stmt>, s: Stmt, b: seq<Stmt>)
    requires s.Break? || s.Continue?
    ensures !JumpsPlaced(a + [s] + b, false)
  {
    var ss := a + [s] + b;
    if a == [] {
      assert ss[0] == s;
    } else {
      assert ss[0] == a[0] && ss[1..] == a[1..] + [s] + b;
      StrayStmt(a[1..], s, b);
    }
  }

  /** A break or continue in a line outside of all loops is reported; a loop may hold any of them. */
  lemma {:induction false} StrayJumpReported(cfg: Config, a: seq<Element>, e: Element, b: seq<Element>, s: Stmt,
                                             before: seq<Stmt>, behind: seq<Stmt>)
    requires s.Break? || s.Continue?
    requires e.Plain? && e.line.stmts == before + [s] + behind
    ensures !Placed(a + [e] + b, false) && Compile(cfg, a + [e] + b) == JumpOutsideLoop
    ensures forall cond :: Placed([While(cond, a + [e] + b)], false)
  {
    var es := a + [e] + b;
    if a == [] {
      assert es[0] == e;
      StrayStmt(before, s, behind);
    } else {
      assert es[0] == a[0] && es[1..] == a[1..] + [e] + b;
      StrayJumpReported(cfg, a[1..], e, b, s, before, behind);
    }
    PlacedInLoop(es);
    forall cond ensures Placed([While(cond, es)], false) {
      assert [While(cond, es)][1..] == [] && PlacedElem(While(cond, es), false);
    }
  }

  // ---- the compiled program ----

  /** No way to divide the cleared lines into allowed groups needs fewer lines than the compiled program has. */
  lemma CompiledIsMinimal(cfg: Config, prog: seq<Element>, m: nat)
    requires Sensible(cfg.lay) && Compile(cfg, prog).Compiled? && Divisible(cfg.lay, Cleared(cfg, prog), 0, m)
    ensures |Compile(cfg, prog).code| <= m
  {
    MergeIsMinimal(cfg.lay, Cleared(cfg, prog), m);
    LabelsCountLines(Dedup(Packed(cfg, prog).value));
    NonEmptyFewer(Dedup(Packed(cfg, prog).value));
  }

  lemma {:induction false} NonEmptyFewer(p: seq<Line>)
    ensures |NonEmpty(p)| <= |p|
  {
    if p != [] {
      NonEmptyFewer(p[1..]);
    }
  }

  /** Nowhere in a line of the code, nor in the blocks nested in it, a goto comes directly behind a goto. */
  predicate NoDoubleLines(ss: seq<Stmt>)
    decreases ss, 0
  {
    ss == [] ||
    (NoDoubleLinesIn(ss[0]) && (|ss| > 1 ==> !(ss[0].Goto? && ss[1].Goto?)) && NoDoubleLines(ss[1..]))
  }

  predicate NoDoubleLinesIn(s: Stmt)
    decreases s, 1
  {
    s.If? ==> NoDoubleLines(s.thn) && NoDoubleLines(s.els)
  }

  lemma {:induction false} NumberedNoDoublesIn(m: JumpLabels, s: Stmt)
    requires UsedInStmt(s) <= m.Keys && NoDoublesIn(s) && LabelledStmt(s)
    ensures NoDoubleLinesIn(NumberStmt(m, s)) && NumberStmt(m, s).Goto? == s.GotoLabel?
    decreases s, 1
  {
    if s.If? {
      NumberedNoDoubles(m, s.thn);
      NumberedNoDoubles(m, s.els);
    }
  }

  lemma {:induction false} NumberedNoDoubles(m: JumpLabels, ss: seq<Stmt>)
    requires UsedIn(ss) <= m.Keys && NoDoubles(ss) && Labelled(ss)
    ensures NoDoubleLines(NumberStmts(m, ss))
    decreases ss, 0
  {
    if ss != [] {
      NumberedNoDoublesIn(m, ss[0]);
      NumberedNoDoubles(m, ss[1..]);
      assert NumberStmts(m, ss)[1..] == NumberStmts(m, ss[1..]);
      if |ss| > 1 {
        NumberedNoDoublesIn(m, ss[1]);
      }
    }
  }

  /** In the compiled program, no goto comes directly behind a goto. */
  lemma CompiledHasNoDoubles(cfg: Config, prog: seq<Element>, j: nat)
    requires cfg.Standard() && NumberFree(prog) && Compile(cfg, prog).Compiled? && j < |Compile(cfg, prog).code|
    ensures NoDoubleLines(Compile(cfg, prog).code[j])
  {
    var lines := Dedup(Packed(cfg, prog).value);
    var q := FindLabels(lines).value;
    PackedClean(cfg, Nothing, prog);
    FindLabelsTable(lines);
    var i := SurvivorAt(lines, |lines|, j);
    assert KeptAt(lines, i, q.lines);
    NamedInLine(q.lines, j);
    DedupLeavesNoDoubles(Packed(cfg, prog).value, i);
    NumberedNoDoubles(q.labels, lines[i].stmts);
  }
}
