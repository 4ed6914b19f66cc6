/** When the compiler accepts a program, and when it reports a label that is set twice. */
module Outcomes {
  import opened Ast
  import opened Semantics
  import opened Nolol
  import opened Merging
  import opened Packing
  import opened Gotos
  import opened Numbering
  import opened Lowering
  import opened LabelCounting
  import opened Compiler

  // ---- labels in the passes behind the lowering ----

  lemma {:induction false} SameLabelsCount(p: seq<Line>, q: seq<Line>, l: LabelName)
    requires |p| == |q| && forall i :: 0 <= i < |p| ==> q[i].lbl == p[i].lbl
    ensures LabelCount(q, l) == LabelCount(p, l)
  {
    if p != [] {
      SameLabelsCount(p[1..], q[1..], l);
    }
  }

  lemma ResolveCount(p: seq<Line>, l: LabelName)
    ensures LabelCount(ResolveChains(p), l) == LabelCount(p, l)
  {
    ResolveChainsChain(p);
    var q := ResolveChains(p);
    forall i | 0 <= i < |p| ensures q[i].lbl == p[i].lbl {
      assert ChainLine(p, p[i], q[i]);
    }
    SameLabelsCount(p, q, l);
  }

  lemma {:induction false} ClearedCount(p: seq<Line>, q: seq<Line>, used: set<LabelName>, l: LabelName)
    requires |p| == |q| && forall i :: 0 <= i < |p| ==> q[i] == ClearLabel(p[i], used)
    ensures LabelCount(q, l) == if l in used then LabelCount(p, l) else 0
  {
    if p != [] {
      ClearedCount(p[1..], q[1..], used, l);
    }
  }

  /** How often a label stands in the lines that are numbered. */
  lemma PackedCount(cfg: Config, prog: seq<Element>, l: LabelName)
    requires Packed(cfg, prog).Some?
    ensures var f := LowerProgram(cfg, prog);
            LabelCount(Dedup(Packed(cfg, prog).value), l) == if l in Used(ResolveChains(f)) then LabelCount(f, l) else 0
  {
    var f := LowerProgram(cfg, prog);
    var r := ResolveChains(f);
    ResolveCount(f, l);
    ClearedCount(r, ClearUnused(r), Used(r), l);
    MergeCount(cfg.lay, ClearUnused(r), l);
    SameLabelsCount(Packed(cfg, prog).value, Dedup(Packed(cfg, prog).value), l);
  }

  // ---- the table of labels ----

  function Declared(m: JumpLabels, l: LabelName): nat {
    if l in m then 1 else 0
  }

  lemma CountStep(p: seq<Line>, i: nat, l: LabelName)
    requires i < |p|
    ensures LabelCount(p[i..], l) == (if p[i].lbl == l then 1 else 0) + LabelCount(p[i + 1..], l)
  {
    assert p[i..][0] == p[i] && p[i..][1..] == p[i + 1..];
  }

  lemma {:induction false} FoundOnce(p: seq<Line>, i: nat, acc: Numbered, l: LabelName)
    requires i <= |p| && NumberFrom(p, i, acc).Some?
    ensures Declared(acc.labels, l) + LabelCount(p[i..], l) <= 1
    decreases |p| - i
  {
    if i < |p| {
      CountStep(p, i, l);
      var acc' := Numbered(EnterLabel(acc.labels, p[i], |acc.lines| + 1),
                           if Survives(p[i]) then acc.lines + [p[i]] else acc.lines);
      FoundOnce(p, i + 1, acc', l);
    }
  }

  lemma {:induction false} FoundTwice(p: seq<Line>, i: nat, acc: Numbered) returns (l: LabelName)
    requires i <= |p| && NumberFrom(p, i, acc).None?
    ensures Declared(acc.labels, l) + LabelCount(p[i..], l) >= 2
    decreases |p| - i
  {
    if p[i].lbl != "" && p[i].lbl in acc.labels {
      l := p[i].lbl;
      CountStep(p, i, l);
    } else {
      var acc' := Numbered(EnterLabel(acc.labels, p[i], |acc.lines| + 1),
                           if Survives(p[i]) then acc.lines + [p[i]] else acc.lines);
      l := FoundTwice(p, i + 1, acc');
      CountStep(p, i, l);
    }
  }

  /** The search for labels fails if and only if a label stands twice. */
  lemma DuplicateIffTwice(p: seq<Line>)
    ensures FindLabels(p).None? <==> exists l: LabelName :: LabelCount(p, l) >= 2
  {
    assert p[0..] == p;
    if FindLabels(p).None? {
      var l := FoundTwice(p, 0, Numbered(map[], []));
    } else {
      forall l: LabelName ensures LabelCount(p, l) <= 1 {
        FoundOnce(p, 0, Numbered(map[], []), l);
      }
    }
  }

  /** The compiler reports a label that is set twice if and only if a goto still names it when the chains of gotos have
      been resolved. Labels that nobody names any more are cleared first, and clashes between them are not noticed. */
  lemma ClashReported(cfg: Config, prog: seq<Element>)
    requires Placed(prog, false) && Packed(cfg, prog).Some?
    ensures var f := LowerProgram(cfg, prog);
            Compile(cfg, prog) == DuplicateLabel <==>
            exists l :: l in Used(ResolveChains(f)) && LabelCount(f, l) >= 2
  {
    var f := LowerProgram(cfg, prog);
    var lines := Dedup(Packed(cfg, prog).value);
    DuplicateIffTwice(lines);
    if FindLabels(lines).None? {
      var l: LabelName :| LabelCount(lines, l) >= 2;
      PackedCount(cfg, prog, l);
    }
    if l :| l in Used(ResolveChains(f)) && LabelCount(f, l) >= 2 {
      PackedCount(cfg, prog, l);
    }
  }

  // ---- programs that are accepted ----

  lemma {:induction false} DedupUsedStmt(s: Stmt)
    ensures UsedInStmt(DedupStmt(s)) <= UsedInStmt(s)
    decreases s, 1
  {
    if s.If? {
      DedupUsed(s.thn, false);
      DedupUsed(s.els, false);
    }
  }

  lemma {:induction false} DedupUsed(ss: seq<Stmt>, last: bool)
    ensures UsedIn(DedupStmts(ss, last).stmts) <= UsedIn(ss)
    decreases ss, 0
  {
    if ss != [] {
      var r := DedupStmts(ss[1..], ss[0].GotoLabel?).stmts;
      DedupUsedStmt(ss[0]);
      DedupUsed(ss[1..], ss[0].GotoLabel?);
      assert ([DedupStmt(ss[0])] + r)[1..] == r;
    }
  }

  lemma {:induction false} UsedAppend(a: seq<Stmt>, b: seq<Stmt>)
    ensures UsedIn(a + b) == UsedIn(a) + UsedIn(b)
  {
    if a == [] {
      assert a + b == b;
    } else {
      assert (a + b)[0] == a[0] && (a + b)[1..] == a[1..] + b;
      UsedAppend(a[1..], b);
    }
  }

  /** All gotos of the lines name labels in `ls`. */
  ghost predicate Within(p: seq<Line>, ls: set<LabelName>) {
    forall i :: 0 <= i < |p| ==> UsedIn(p[i].stmts) <= ls
  }

  lemma {:induction false} UsedWithin(p: seq<Line>, ls: set<LabelName>)
    requires Within(p, ls)
    ensures Used(p) <= ls
  {
    if p != [] {
      assert Within(p[1..], ls);
      UsedWithin(p[1..], ls);
    }
  }

  lemma {:induction false} ConcatUsed(p: seq<Line>, ls: set<LabelName>)
    requires Within(p, ls)
    ensures UsedIn(Concat(p)) <= ls
  {
    if p != [] {
      ConcatUsed(p[1..], ls);
      UsedAppend(p[0].stmts, Concat(p[1..]));
    }
  }

  /** Merging introduces no gotos and no lines. */
  lemma {:induction false} MergeFromWithin(lay: Layout, p: seq<Line>, i: nat, done: seq<Line>, ls: set<LabelName>)
    requires i <= |p| && MergeFrom(lay, p, i, done).Some? && Within(p, ls) && Within(done, ls)
    ensures Within(MergeFrom(lay, p, i, done).value, ls)
    ensures |MergeFrom(lay, p, i, done).value| <= |done| + |p| - i
    decreases |p| - i
  {
    if i < |p| {
      var k := GroupLast(lay, p, i).value + 1;
      ConcatUsed(p[i..k], ls);
      MergeFromWithin(lay, p, k, done + [Joined(p[i..k])], ls);
    }
  }

  /** The lines that are numbered. */
  lemma PackedWithin(cfg: Config, prog: seq<Element>)
    requires Packed(cfg, prog).Some?
    ensures var f, lines := LowerProgram(cfg, prog), Dedup(Packed(cfg, prog).value);
            Within(lines, Used(ResolveChains(f))) && |lines| <= |f|
  {
    var f := LowerProgram(cfg, prog);
    var r := ResolveChains(f);
    ResolveChainsChain(f);
    var m := Packed(cfg, prog).value;
    MergeFromWithin(cfg.lay, ClearUnused(r), 0, [], Used(r));
    forall i | 0 <= i < |m| ensures UsedIn(Dedup(m)[i].stmts) <= Used(r) {
      DedupUsed(m[i].stmts, GotoBefore(m, i));
    }
  }

  lemma {:induction false} CountSome(p: seq<Line>, l: LabelName) returns (k: nat)
    requires LabelCount(p, l) >= 1
    ensures k < |p| && p[k].lbl == l
  {
    if p[0].lbl == l {
      k := 0;
    } else {
      k := CountSome(p[1..], l);
      k := k + 1;
    }
  }

  lemma SurvivorsWithin(p: seq<Line>, q: Numbered, ls: set<LabelName>)
    requires KeptUpTo(p, |p|, q.lines) && Within(p, ls)
    ensures Within(q.lines, ls) && |q.lines| <= |p|
  {
    forall i | 0 <= i < |q.lines| ensures UsedIn(q.lines[i].stmts) <= ls {
      var k := SurvivorAt(p, |p|, i);
      assert KeptAt(p, k, q.lines);
    }
  }

  /** The compiler accepts a program of fewer than 20 lines of code if these fit, and if each label that is named stands
      exactly once. */
  lemma Accepted(cfg: Config, prog: seq<Element>)
    requires Placed(prog, false) && Sensible(cfg.lay) && |LowerProgram(cfg, prog)| < LAST_LINE
    requires var r := ResolveChains(LowerProgram(cfg, prog));
             && (forall i :: 0 <= i < |r| ==> cfg.lay.len(r[i].stmts) <= cfg.lay.max)
             && (forall l :: l in Used(r) ==> LabelCount(LowerProgram(cfg, prog), l) == 1)
    ensures Compile(cfg, prog).Compiled? && EndReachable(Dedup(Packed(cfg, prog).value))
  {
    var f := LowerProgram(cfg, prog);
    var r := ResolveChains(f);
    MergeIsMinimal(cfg.lay, ClearUnused(r), 0);
    PackedWithin(cfg, prog);
    var lines := Dedup(Packed(cfg, prog).value);
    DuplicateIffTwice(lines);
    forall l: LabelName ensures LabelCount(lines, l) <= 1 {
      PackedCount(cfg, prog, l);
    }
    var q := FindLabels(lines).value;
    FindLabelsTable(lines);
    SurvivorsWithin(lines, q, Used(r));
    UsedWithin(q.lines, Used(r));
    forall l: LabelName | l in Used(r) ensures l in q.labels {
      PackedCount(cfg, prog, l);
      var k := CountSome(lines, l);
      assert LabelAt(lines, k, q.labels);
    }
  }
}
