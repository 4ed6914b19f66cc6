/** A program with a label behind its 20 lines, which the compiler accepts and the machine cannot run. */
module Overrun {
  import opened Ast
  import opened Operations
  import opened Semantics
  import opened Behaviour
  import opened Machine
  import opened Nolol
  import opened Merging
  import opened Gotos
  import opened Numbering
  import opened Lowering
  import opened Placing
  import opened Labelling
  import opened Compiler
  import opened Limits

  // ---- programs without blocks ----

  function Plains(lines: seq<Line>): seq<Element> {
    if lines == [] then [] else [Element.Plain(lines[0])] + Plains(lines[1..])
  }

  lemma {:induction false} PlainsLowered(cfg: Config, lines: seq<Line>, c: Ctr)
    requires forall i :: 0 <= i < |lines| ==> LowerStmts(cfg, lines[i].stmts, None) == lines[i].stmts
    ensures LowerList(cfg, Plains(lines), c, None) == Low(lines, c)
  {
    if lines != [] {
      PlainsLowered(cfg, lines[1..], c);
      assert Plains(lines)[1..] == Plains(lines[1..]);
      assert LowerElem(cfg, Plains(lines)[0], c, None) == Low([lines[0]], c);
    }
  }

  lemma {:induction false} PlainsPlaced(lines: seq<Line>)
    requires forall i :: 0 <= i < |lines| ==> JumpsPlaced(lines[i].stmts, false)
    ensures Placed(Plains(lines), false)
  {
    if lines != [] {
      PlainsPlaced(lines[1..]);
      assert Plains(lines)[1..] == Plains(lines[1..]);
    }
  }

  lemma {:induction false} PlainsFind(lines: seq<Line>, l: LabelName, k: nat)
    requires k < |lines| && lines[k].lbl == l && forall i :: 0 <= i < k ==> lines[i].lbl != l
    ensures SFind(Plains(lines), l, Stop) == Some(Point(Plains(lines[k..]), Stop))
  {
    assert Plains(lines)[1..] == Plains(lines[1..]);
    if k == 0 {
      assert lines[0..] == lines;
    } else {
      PlainsFind(lines[1..], l, k - 1);
      assert lines[1..][k - 1..] == lines[k..];
    }
  }

  /** The passes up to the numbering leave a program alone whose gotos start no chains, whose labels are used, and none
      of whose lines may be appended to another one. */
  lemma {:induction false} Unmerged(lay: Layout, lines: seq<Line>, i: nat, done: seq<Line>)
    requires i <= |lines| && forall j :: 0 <= j < |lines| ==> !lines[j].bol && GroupLast(lay, lines, j) == Some(j)
    ensures MergeFrom(lay, lines, i, done) == Some(done + lines[i..])
    decreases |lines| - i
  {
    if i < |lines| {
      assert lines[i..i + 1] == [lines[i]];
      ConcatOne(lines[i]);
      assert Joined(lines[i..i + 1]) == lines[i];
      Unmerged(lay, lines, i + 1, done + [lines[i]]);
      assert done + [lines[i]] + lines[i + 1..] == done + lines[i..];
    } else {
      assert done + lines[i..] == done;
    }
  }

  lemma {:induction false} Unredirected(p: seq<Line>, i: nat)
    requires i <= |p| && forall j :: 0 <= j < |p| ==> RedirectLine(p, j, 0) == p
    ensures ResolveFrom(p, i) == p
    decreases |p| - i
  {
    if i < |p| {
      Unredirected(p, i + 1);
    }
  }

  // ---- a label behind the last of 20 lines ----

  /** Line `i` of `goto x $`, 19 times `y = <one> $`, and `x>`. */
  function OverrunLine(one: string, i: nat): Line {
    if i == 0 then Line("", false, true, [GotoLabel("x")])
    else if i < 20 then Line("", false, true, [Assign("y", Set, Num(one))])
    else Line("x", false, false, [])
  }

  function OverrunLines(one: string): (p: seq<Line>)
    ensures |p| == 21
  {
    seq(21, i requires 0 <= i < 21 => OverrunLine(one, i))
  }

  lemma OverrunStmts(one: string, i: nat)
    ensures var ss := OverrunLine(one, i).stmts;
            UsedIn(ss) == (if i == 0 then {"x"} else {}) && JumpsPlaced(ss, false)
  {
    var s, g := Assign("y", Set, Num(one)), GotoLabel("x");
    assert [s][1..] == [] && [g][1..] == [] && JumpsPlaced([], false);
  }

  lemma OverrunKept(one: string, i: nat, last: bool)
    requires i == 0 ==> !last
    ensures DedupStmts(OverrunLine(one, i).stmts, last).stmts == OverrunLine(one, i).stmts
  {
    var s, g := Assign("y", Set, Num(one)), GotoLabel("x");
    assert [s][1..] == [] && [g][1..] == [];
    assert DedupStmt(s) == s && DedupStmt(g) == g;
    assert DedupStmts([], true).stmts == [] && DedupStmts([], false).stmts == [];
    assert DedupStmts([g], false).stmts == [g] + [] == [g];
    assert DedupStmts([s], true).stmts == [s] + [] && DedupStmts([s], false).stmts == [s] + [];
  }

  lemma OverrunUsed(one: string)
    ensures Used(OverrunLines(one)) == {"x"} == Used(OverrunLines(one)[..20])
  {
    var p := OverrunLines(one);
    OverrunStmts(one, 0);
    forall l: LabelName | l in Used(p) || l in Used(p[..20]) ensures l == "x" {
      if l in Used(p) {
        var i := UsedSomewhere(p, l);
        OverrunStmts(one, i);
      } else {
        var i := UsedSomewhere(p[..20], l);
        OverrunStmts(one, i);
      }
    }
    assert UsedIn(p[0].stmts) <= Used(p) && UsedIn(p[..20][0].stmts) <= Used(p[..20]);
  }

  lemma OverrunLowered(cfg: Config, one: string)
    requires cfg.Standard()
    ensures LowerProgram(cfg, Plains(OverrunLines(one))) == OverrunLines(one)
    ensures Placed(Plains(OverrunLines(one)), false)
  {
    var p := OverrunLines(one);
    AssignLowered(cfg, "y", one);
    GotoLowered(cfg, "x", None);
    assert LowerStmts(cfg, [], None) == [];
    PlainsLowered(cfg, p, Ctr(0, 0));
    forall i | 0 <= i < |p| ensures JumpsPlaced(p[i].stmts, false) {
      OverrunStmts(one, i);
    }
    PlainsPlaced(p);
  }

  lemma OverrunResolved(one: string)
    ensures ResolveChains(OverrunLines(one)) == OverrunLines(one)
  {
    var p := OverrunLines(one);
    FindFirst(p, "x");
    assert p[20].lbl == "x" && Find(p, "x") == Some(20);
    assert FirstGoto(p, 21) == None && FirstGoto(p, 20) == None && Redirect(p, "x") == "x";
    forall j | 0 <= j < |p| ensures RedirectLine(p, j, 0) == p {
      if j < 20 {
        RedirectSame(p, j, 0);
        RedirectOne(p, j);
      }
    }
    Unredirected(p, 0);
  }

  lemma OverrunPacked(cfg: Config, one: string)
    requires cfg.Standard()
    ensures Packed(cfg, Plains(OverrunLines(one))) == Some(OverrunLines(one))
  {
    var p := OverrunLines(one);
    OverrunLowered(cfg, one);
    OverrunResolved(one);
    OverrunUsed(one);
    AllUsed(p);
    OverrunMerged(cfg.lay, one);
  }

  lemma AllUsed(p: seq<Line>)
    requires forall i :: 0 <= i < |p| ==> p[i].lbl == "" || p[i].lbl in Used(p)
    ensures ClearUnused(p) == p
  {
    forall i | 0 <= i < |p| ensures ClearUnused(p)[i] == p[i] {
    }
  }

  lemma OverrunMerged(lay: Layout, one: string)
    ensures Merge(lay, OverrunLines(one)) == Some(OverrunLines(one))
  {
    var p := OverrunLines(one);
    Unmerged(lay, p, 0, []);
    assert [] + p[0..] == p;
  }

  lemma OverrunDedup(one: string)
    ensures Dedup(OverrunLines(one)) == OverrunLines(one)
  {
    var p := OverrunLines(one);
    forall i | 0 <= i < |p| ensures Dedup(p)[i] == p[i] {
      OverrunKept(one, i, GotoBefore(p, i));
    }
  }

  lemma {:induction false} OverrunNumbered(one: string, i: nat)
    requires i <= 20
    ensures var p := OverrunLines(one);
            NumberFrom(p, i, Numbered(map[], p[..i])) == Some(Numbered(map["x" := 21], p[..20]))
    decreases 20 - i
  {
    var p := OverrunLines(one);
    if i < 20 {
      OverrunNumbered(one, i + 1);
      assert p[..i + 1] == p[..i] + [p[i]];
    } else {
      assert EnterLabel(map[], p[20], 21) == map["x" := 21];
      assert NumberFrom(p, 21, Numbered(map["x" := 21], p[..20])) == Some(Numbered(map["x" := 21], p[..20]));
    }
  }

  /** The program has exactly 20 lines of code, and its first line goes to line 21. */
  lemma OverrunCode(cfg: Config, one: string)
    requires cfg.Standard()
    ensures var r := Compile(cfg, Plains(OverrunLines(one)));
            && r.Compiled? && |r.code| == 20 && r.code[0] == [Goto(Num(Itoa(21)))]
            && r.code[19] == [Assign("y", Set, Num(one))]
  {
    var p := OverrunLines(one);
    var m: JumpLabels := map["x" := 21];
    OverrunLowered(cfg, one);
    OverrunPacked(cfg, one);
    OverrunDedup(one);
    OverrunUsed(one);
    OverrunNumbered(one, 0);
    assert p[..0] == [];
    var s := Assign("y", Set, Num(one));
    assert [s][1..] == [] && [GotoLabel("x")][1..] == [];
    assert NumberStmts(m, [s]) == [s] + [];
    assert NumberStmts(m, [GotoLabel("x")]) == [Goto(Num(Itoa(21)))] + [];
    assert Resolve(p) == Compiled(NumberLines(m, p[..20]));
  }

  /** The places of the program; it writes nothing at any of them. */
  ghost predicate OverrunPlace(one: string, st: State, c: SConf) {
    || c == SHalt(st) || c == SRun([], Stop, st)
    || c == SRun(Plains([OverrunLine(one, 20)]), Stop, st) || c == SRun(Plains(OverrunLines(one)), Stop, st)
  }

  lemma OverrunStep(env: Env, one: string, st: State, c: SConf)
    requires OverrunPlace(one, st, c)
    ensures OverrunPlace(one, st, SStep(env, Plains(OverrunLines(one)), c))
  {
    var p := OverrunLines(one);
    var last := OverrunLine(one, 20);
    PlainsFind(p, "x", 20);
    assert p[20..] == [last];
    assert Plains([last]) == [Element.Plain(last)] + Plains([last][1..]) && Plains([last])[1..] == [];
    assert Plains(p)[0] == Element.Plain(p[0]);
    RunOne(env.d, GotoLabel("x"), st);
    assert RunStmts(env.d, [], st) == Result(Next, st);
  }

  lemma {:induction false} OverrunRuns(env: Env, one: string, st: State, c: SConf, n: nat)
    requires OverrunPlace(one, st, c)
    ensures OverrunPlace(one, st, SSteps(env, Plains(OverrunLines(one)), n, c))
    decreases n
  {
    if n > 0 {
      OverrunStep(env, one, st, c);
      OverrunRuns(env, one, st, SStep(env, Plains(OverrunLines(one)), c), n - 1);
    }
  }

  lemma OverrunVm(env: Env, one: string, code: Code, st: State)
    requires env.d.ReadsNaturals() && env.d.parse(one) == Some(1.0)
    requires |code| == 20 && code[0] == [Goto(Num(Itoa(21)))] && code[19] == [Assign("y", Set, Num(one))]
    ensures Vm(env, code, st)(2) == Going(Put(st, "y", N(1.0)))
  {
    assert env.d.parse(Itoa(21)).Some? && env.d.intPart(env.d.parse(Itoa(21)).value) == 21;
    RunOne(env.d, Goto(Num(Itoa(21))), st);
    RunOne(env.d, Assign("y", Set, Num(one)), st);
    var st' := Put(st, "y", N(1.0));
    assert VmStep(env, code, Run(0, st)) == Run(19, st);
    assert VmStep(env, code, Run(19, st)) == Run(20, st');
    assert VmSteps(env, code, 2, Run(0, st)) == VmSteps(env, code, 1, Run(19, st)) ==
           VmSteps(env, code, 0, Run(20, st'));
  }

  /** A program with a label behind its 20 lines is accepted, and its code writes a variable that the program skips: the
      machine goes to line 20 instead. */
  lemma Label21Miscompiled(env: Env, cfg: Config, one: string, st: State)
    requires cfg.Standard() && env.d.ReadsNaturals() && env.d.parse(one) == Some(1.0)
    ensures var prog := Plains(OverrunLines(one)); var r := Compile(cfg, prog);
            r.Compiled? && !EquivalentUnlessError(Source(env, prog, st), Vm(env, r.code, st))
  {
    var prog := Plains(OverrunLines(one));
    OverrunCode(cfg, one);
    var code := Compile(cfg, prog).code;
    var a, b := Source(env, prog, st), Vm(env, code, st);
    OverrunVm(env, one, code, st);
    assert prog != [] && Go(prog, Stop, st) == SRun(prog, Stop, st);
    forall n: nat ensures !Covers(b(2), a(n)) && !a(n).Crashed? {
      OverrunRuns(env, one, st, Go(prog, Stop, st), n);
      assert a(n).st == st && |b(2).st.trace| == |st.trace| + 1;
    }
    assert ErrorFree(a) && !CoveredBy(b(2), a);
  }
}
