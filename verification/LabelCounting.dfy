/** Lowering keeps the labels of the user and adds each label of its own at most once. */
module LabelCounting {
  import opened Ast
  import opened Machine
  import opened Nolol
  import opened Labels
  import opened Inversion
  import opened Merging
  import opened Gotos
  import opened Lowering

  /** How many lines carry the label. */
  function LabelCount(code: seq<Line>, l: LabelName): nat {
    if code == [] then 0 else (if code[0].lbl == l then 1 else 0) + LabelCount(code[1..], l)
  }

  /** How many lines of the source carry the label. */
  function SrcCount(es: seq<Element>, l: LabelName): nat
    decreases es, 0
  {
    if es == [] then 0 else SrcCountElem(es[0], l) + SrcCount(es[1..], l)
  }

  function SrcCountElem(e: Element, l: LabelName): nat
    decreases e, 2
  {
    match e
    case Plain(line) => if line.lbl == l then 1 else 0
    case MultiIf(branches, els) =>
      SrcCountBranches(branches, l) + SrcCountElse(els, l)
    case While(_, body) => SrcCount(body, l)
  }

  function SrcCountBranches(branches: seq<Branch>, l: LabelName): nat
    decreases branches, 1
  {
    if branches == [] then 0 else SrcCount(branches[0].body, l) + SrcCountBranches(branches[1..], l)
  }

  function SrcCountElse(els: Else, l: LabelName): nat
    decreases els, 1
  {
    match els
    case NoElse => 0
    case ElseBlock(es) => SrcCount(es, l)
  }

  // ---- which programs are lowered faithfully ----

  /** The block of a branch that becomes a single line can be merged, and it is not empty if control has to be led past
      the other branches behind it; the condition of any other branch may be negated. */
  ghost predicate FaithfulBranch(cfg: Config, cond: Expr, body: seq<Line>, end: Option<Gen>) {
    if InlineBranch(cfg, cond, body, end).Some? then Merge(cfg.lay, body).Some? && (end.Some? ==> body != [])
    else FineAsCondition(cfg.d, cond)
  }

  /** What the blocks and the gotos have to be like; `own` are the labels that belong to the user. */
  ghost predicate Faithful(cfg: Config, own: iset<string>, es: seq<Element>, c: Ctr, lp: Option<nat>)
    decreases es, 0
  {
    es == [] ||
    (FaithfulElem(cfg, own, es[0], c, lp) && Faithful(cfg, own, es[1..], LowerElem(cfg, es[0], c, lp).ctr, lp))
  }

  /** The gotos name labels of the user only. */
  ghost predicate OwnTargets(own: iset<string>, ss: seq<Stmt>) {
    forall l {:trigger OwnTarget(own, ss, l)} :: OwnTarget(own, ss, l)
  }

  ghost predicate OwnTarget(own: iset<string>, ss: seq<Stmt>, l: LabelName) {
    l in UsedIn(ss) ==> l in own
  }

  ghost predicate FaithfulElem(cfg: Config, own: iset<string>, e: Element, c: Ctr, lp: Option<nat>)
    decreases e, 2
  {
    match e
    case Plain(line) => OwnTargets(own, line.stmts)
    case MultiIf(branches, els) =>
      var (bodies, c1) := LowerBodies(cfg, branches, c, lp);
      var n := LowerElse(cfg, els, c1, lp).ctr.ifs;
      && branches != []
      && FaithfulBodies(cfg, own, branches, c, lp)
      && FaithfulElse(cfg, own, els, c1, lp)
      && FaithfulBranches(cfg, n, Conds(cfg, branches), bodies, els.ElseBlock?)
    case While(cond, body) =>
      FineAsCondition(cfg.d, LoopCond(cfg, cond)) &&
          Faithful(cfg, own, body, c.(loops := c.loops + 1), Some(c.loops + 1))
  }

  ghost predicate FaithfulBranches(cfg: Config, n: nat, conds: seq<Expr>, bodies: seq<seq<Line>>, hasElse: bool) {
    |conds| == |bodies| &&
    forall i {:trigger FaithfulBranch(cfg, conds[i], bodies[i], EndOf(n, i, |conds|, hasElse))} ::
      0 <= i < |conds| ==> FaithfulBranch(cfg, conds[i], bodies[i], EndOf(n, i, |conds|, hasElse))
  }

  ghost predicate FaithfulBodies(cfg: Config, own: iset<string>, branches: seq<Branch>, c: Ctr, lp: Option<nat>)
    decreases branches, 1
  {
    branches == [] ||
    (Faithful(cfg, own, branches[0].body, c, lp) &&
     FaithfulBodies(cfg, own, branches[1..], LowerList(cfg, branches[0].body, c, lp).ctr, lp))
  }

  ghost predicate FaithfulElse(cfg: Config, own: iset<string>, els: Else, c: Ctr, lp: Option<nat>)
    decreases els, 1
  {
    match els
    case NoElse => true
    case ElseBlock(es) => Faithful(cfg, own, es, c, lp)
  }

  // ---- counting ----

  lemma {:induction false} CountAppend(a: seq<Line>, b: seq<Line>, l: LabelName)
    ensures LabelCount(a + b, l) == LabelCount(a, l) + LabelCount(b, l)
  {
    if a == [] {
      assert a + b == b;
    } else {
      assert (a + b)[0] == a[0] && (a + b)[1..] == a[1..] + b;
      CountAppend(a[1..], b, l);
    }
  }

  lemma CountOne(line: Line, l: LabelName)
    ensures LabelCount([line], l) == if line.lbl == l then 1 else 0
  {
  }

  lemma {:induction false} CountUnlabelled(code: seq<Line>, l: LabelName)
    requires forall i :: 0 <= i < |code| ==> code[i].lbl == ""
    ensures LabelCount(code, l) == 0
  {
    if code != [] {
      CountUnlabelled(code[1..], l);
    }
  }

  lemma {:induction false} CountAt(code: seq<Line>, l: LabelName, i: nat)
    requires i < |code| && code[i].lbl == l
    ensures LabelCount(code, l) >= 1
  {
    if i > 0 {
      CountAt(code[1..], l, i - 1);
    }
  }

  lemma {:induction false} CountTwo(code: seq<Line>, l: LabelName, i: nat, j: nat)
    requires i < j < |code| && code[i].lbl == l && code[j].lbl == l
    ensures LabelCount(code, l) >= 2
  {
    if i == 0 {
      CountAt(code[1..], l, j - 1);
    } else {
      CountTwo(code[1..], l, i - 1, j - 1);
    }
  }

  /** A label that occurs once is found where it is. */
  lemma FindOnly(code: seq<Line>, l: LabelName, i: nat)
    requires i < |code| && code[i].lbl == l && LabelCount(code, l) <= 1
    ensures Find(code, l) == Some(i)
  {
    FindFirst(code, l);
    if Find(code, l) != Some(i) {
      CountTwo(code, l, Find(code, l).value, i);
    }
  }

  lemma FindNothing(code: seq<Line>, l: LabelName)
    requires LabelCount(code, l) == 0
    ensures Find(code, l) == None
  {
    if Find(code, l).Some? {
      CountAt(code, l, Find(code, l).value);
    }
  }

  lemma {:induction false} MergeFromCount(lay: Layout, lines: seq<Line>, i: nat, done: seq<Line>, l: LabelName)
    requires i <= |lines| && MergeFrom(lay, lines, i, done).Some?
    ensures LabelCount(MergeFrom(lay, lines, i, done).value, l) == LabelCount(done, l) + LabelCount(lines[i..], l)
    decreases |lines| - i
  {
    if i < |lines| {
      var k := GroupLast(lay, lines, i).value + 1;
      if !lines[i].eol {
        GrownUnlabelled(lay, lines[i].stmts, lines, i);
      }
      assert lines[i..] == [lines[i]] + lines[i + 1..k] + lines[k..];
      CountAppend([lines[i]] + lines[i + 1..k], lines[k..], l);
      CountAppend([lines[i]], lines[i + 1..k], l);
      CountUnlabelled(lines[i + 1..k], l);
      CountAppend(done, [Joined(lines[i..k])], l);
      MergeFromCount(lay, lines, k, done + [Joined(lines[i..k])], l);
    }
  }

  /** Merging neither adds nor loses labels. */
  lemma MergeCount(lay: Layout, lines: seq<Line>, l: LabelName)
    requires Merge(lay, lines).Some?
    ensures LabelCount(Merge(lay, lines).value, l) == LabelCount(lines, l)
  {
    MergeFromCount(lay, lines, 0, [], l);
    assert lines[0..] == lines;
  }

  function BodiesCount(bodies: seq<seq<Line>>, i: nat, l: LabelName): nat
    requires i <= |bodies|
    decreases |bodies| - i
  {
    if i == |bodies| then 0 else LabelCount(bodies[i], l) + BodiesCount(bodies, i + 1, l)
  }

  lemma {:induction false} BodiesCountTail(bodies: seq<seq<Line>>, i: nat, l: LabelName)
    requires i < |bodies|
    ensures BodiesCount(bodies, i + 1, l) == BodiesCount(bodies[1..], i, l)
    decreases |bodies| - i
  {
    if i + 1 < |bodies| {
      BodiesCountTail(bodies, i + 1, l);
    }
  }

  lemma {:induction false} TidyCount(p: seq<Line>, l: LabelName)
    ensures LabelCount(TidyLines(p), l) == LabelCount(p, l)
  {
    if p != [] {
      assert TidyLines(p)[1..] == TidyLines(p[1..]);
      TidyCount(p[1..], l);
    }
  }

  lemma BranchCount(cfg: Config, n: nat, i: nat, cond: Expr, body: seq<Line>, end: Option<Gen>, l: LabelName)
    requires InlineBranch(cfg, cond, body, end).Some? ==> Merge(cfg.lay, body).Some?
    ensures LabelCount(BranchCode(cfg, n, i, cond, body, end), l) ==
            LabelCount(body, l) + if InlineBranch(cfg, cond, body, end).None? && Text(IfSkip(n, i)) == l then 1 else 0
  {
    var code := BranchCode(cfg, n, i, cond, body, end);
    if InlineBranch(cfg, cond, body, end).Some? {
      MergeCount(cfg.lay, body, l);
    } else {
      var head := Bare([GotoIf(cfg.boolexp(Un(Not, cond)), IfSkip(n, i))]);
      var jump := if end.Some? then [Bare([GotoLabel(Text(end.value))])] else [];
      var block := Attempted(cfg, body);
      TidyCount(body, l);
      CountAppend([head] + block + jump, [Mark(IfSkip(n, i))], l);
      CountAppend([head] + block, jump, l);
      CountAppend([head], block, l);
      CountUnlabelled(jump, l);
    }
  }

  lemma FirstBranchCount(cfg: Config, n: nat, i: nat, conds: seq<Expr>, bodies: seq<seq<Line>>, hasElse: bool,
                         l: LabelName)
    requires |conds| == |bodies| && i < |conds|
    requires FaithfulBranch(cfg, conds[i], bodies[i], EndOf(n, i, |conds|, hasElse))
    ensures var more := LabelCount(BranchesCode(cfg, n, i, conds, bodies, hasElse), l) -
                        LabelCount(BranchesCode(cfg, n, i + 1, conds, bodies, hasElse), l) - LabelCount(bodies[i], l);
            0 <= more <= 1 && (more == 1 ==> Text(IfSkip(n, i)) == l)
  {
    var end := EndOf(n, i, |conds|, hasElse);
    BranchCount(cfg, n, i, conds[i], bodies[i], end, l);
    CountAppend(BranchCode(cfg, n, i, conds[i], bodies[i], end),
                BranchesCode(cfg, n, i + 1, conds, bodies, hasElse), l);
  }

  lemma {:induction false} BranchesCount(cfg: Config, n: nat, i: nat, conds: seq<Expr>, bodies: seq<seq<Line>>,
                                         hasElse: bool, l: LabelName)
    requires FaithfulBranches(cfg, n, conds, bodies, hasElse) && i <= |conds|
    ensures var count := LabelCount(BranchesCode(cfg, n, i, conds, bodies, hasElse), l);
            && BodiesCount(bodies, i, l) <= count <= BodiesCount(bodies, i, l) + 1
            && (count > BodiesCount(bodies, i, l) ==> exists j: nat :: j >= i && l == Text(IfSkip(n, j)))
    decreases |conds| - i
  {
    if i < |conds| {
      assert FaithfulBranch(cfg, conds[i], bodies[i], EndOf(n, i, |conds|, hasElse));
      FirstBranchCount(cfg, n, i, conds, bodies, hasElse, l);
      BranchesCount(cfg, n, i + 1, conds, bodies, hasElse, l);
      if Text(IfSkip(n, i)) == l &&
         LabelCount(BranchesCode(cfg, n, i + 1, conds, bodies, hasElse), l) > BodiesCount(bodies, i + 1, l) {
        var j: nat :| j >= i + 1 && l == Text(IfSkip(n, j));
        TextInjective(IfSkip(n, i), IfSkip(n, j));
      }
    }
  }

  lemma IfCount(cfg: Config, n: nat, conds: seq<Expr>, bodies: seq<seq<Line>>, hasElse: bool, els: seq<Line>,
                l: LabelName)
    requires FaithfulBranches(cfg, n, conds, bodies, hasElse)
    ensures var count := LabelCount(IfCode(cfg, n, conds, bodies, hasElse, els), l);
            var inner := BodiesCount(bodies, 0, l) + LabelCount(els, l);
            && inner <= count <= inner + 1
            && (count > inner ==> l == Text(IfEnd(n)) || exists j: nat :: l == Text(IfSkip(n, j)))
  {
    var bs := BranchesCode(cfg, n, 0, conds, bodies, hasElse);
    BranchesCount(cfg, n, 0, conds, bodies, hasElse, l);
    CountAppend(bs + els, [Mark(IfEnd(n))], l);
    CountAppend(bs, els, l);
    CountOne(Mark(IfEnd(n)), l);
    if l == Text(IfEnd(n)) && LabelCount(bs, l) > BodiesCount(bodies, 0, l) {
      var j: nat :| j >= 0 && l == Text(IfSkip(n, j));
      TextInjective(IfEnd(n), IfSkip(n, j));
    }
  }

  lemma WhileCount(cfg: Config, n: nat, cond: Expr, body: seq<Line>, l: LabelName)
    ensures LabelCount(WhileCode(cfg, n, cond, body), l) == LabelCount(body, l) +
            (if l == Text(LoopStart(n)) then 1 else 0) + (if l == Text(LoopEnd(n)) then 1 else 0)
  {
    var jump, last := Bare([GotoLabel(Text(LoopStart(n)))]), Mark(LoopEnd(n));
    CountAppend([LoopHead(cfg, n, cond)] + body, [jump, last], l);
    CountAppend([LoopHead(cfg, n, cond)], body, l);
    CountAppend([jump], [last], l);
    assert [jump] + [last] == [jump, last];
  }

  // ---- the labels of the user ----

  lemma {:induction false} UserCount(cfg: Config, own: iset<string>, es: seq<Element>, c: Ctr, lp: Option<nat>,
                                     l: LabelName)
    requires Faithful(cfg, own, es, c, lp) && !Reserved(l)
    ensures LabelCount(LowerList(cfg, es, c, lp).code, l) == SrcCount(es, l)
    decreases es, 0
  {
    if es != [] {
      var a := LowerElem(cfg, es[0], c, lp);
      UserCountElem(cfg, own, es[0], c, lp, l);
      UserCount(cfg, own, es[1..], a.ctr, lp, l);
      CountAppend(a.code, LowerList(cfg, es[1..], a.ctr, lp).code, l);
    }
  }

  lemma {:induction false} UserCountElem(cfg: Config, own: iset<string>, e: Element, c: Ctr, lp: Option<nat>,
                                         l: LabelName)
    requires FaithfulElem(cfg, own, e, c, lp) && !Reserved(l)
    ensures LabelCount(LowerElem(cfg, e, c, lp).code, l) == SrcCountElem(e, l)
    decreases e, 2
  {
    match e
    case Plain(line) =>
      CountOne(LowerLine(cfg, line, lp), l);
    case MultiIf(branches, els) =>
      var (bodies, c1) := LowerBodies(cfg, branches, c, lp);
      var r := LowerElse(cfg, els, c1, lp);
      UserCountBodies(cfg, own, branches, c, lp, l);
      if els.ElseBlock? {
        UserCount(cfg, own, els.es, c1, lp, l);
      }
      IfCount(cfg, r.ctr.ifs, Conds(cfg, branches), bodies, els.ElseBlock?, r.code, l);
    case While(cond, body) =>
      var n := c.loops + 1;
      UserCount(cfg, own, body, c.(loops := n), Some(n), l);
      WhileCount(cfg, n, cond, LowerList(cfg, body, c.(loops := n), Some(n)).code, l);
  }

  lemma {:induction false} UserCountBodies(cfg: Config, own: iset<string>, branches: seq<Branch>, c: Ctr,
                                           lp: Option<nat>, l: LabelName)
    requires FaithfulBodies(cfg, own, branches, c, lp) && !Reserved(l)
    ensures BodiesCount(LowerBodies(cfg, branches, c, lp).0, 0, l) == SrcCountBranches(branches, l)
    decreases branches, 1
  {
    if branches != [] {
      var c' := LowerList(cfg, branches[0].body, c, lp).ctr;
      UserCount(cfg, own, branches[0].body, c, lp, l);
      UserCountBodies(cfg, own, branches[1..], c', lp, l);
      var bodies := LowerBodies(cfg, branches, c, lp).0;
      assert bodies[1..] == LowerBodies(cfg, branches[1..], c', lp).0;
      BodiesCountTail(bodies, 0, l);
    }
  }

  // ---- the labels of the compiler ----

  /** The label belongs to an if or loop numbered between the two counter readings. */
  predicate GenIn(g: Gen, c: Ctr, c': Ctr) {
    match g
    case LoopStart(n) => c.loops < n <= c'.loops
    case LoopEnd(n) => c.loops < n <= c'.loops
    case IfEnd(n) => c.ifs <= n < c'.ifs
    case IfSkip(n, _) => c.ifs <= n < c'.ifs
  }

  predicate CtrLe(c: Ctr, c': Ctr) {
    c.ifs <= c'.ifs && c.loops <= c'.loops
  }

  ghost predicate AtMostOnce(count: nat, g: Gen, c: Ctr, c': Ctr) {
    CtrLe(c, c') && count <= 1 && (count > 0 ==> GenIn(g, c, c'))
  }

  lemma {:induction false} GenCount(cfg: Config, own: iset<string>, es: seq<Element>, c: Ctr, lp: Option<nat>, g: Gen)
    requires Faithful(cfg, own, es, c, lp) && SrcCount(es, Text(g)) == 0
    ensures var r := LowerList(cfg, es, c, lp); AtMostOnce(LabelCount(r.code, Text(g)), g, c, r.ctr)
    decreases es, 0
  {
    if es != [] {
      var a := LowerElem(cfg, es[0], c, lp);
      GenCountElem(cfg, own, es[0], c, lp, g);
      GenCount(cfg, own, es[1..], a.ctr, lp, g);
      CountAppend(a.code, LowerList(cfg, es[1..], a.ctr, lp).code, Text(g));
    }
  }

  lemma {:induction false} GenCountElem(cfg: Config, own: iset<string>, e: Element, c: Ctr, lp: Option<nat>, g: Gen)
    requires FaithfulElem(cfg, own, e, c, lp) && SrcCountElem(e, Text(g)) == 0
    ensures var r := LowerElem(cfg, e, c, lp); AtMostOnce(LabelCount(r.code, Text(g)), g, c, r.ctr)
    decreases e, 2
  {
    match e
    case Plain(line) =>
      CountOne(LowerLine(cfg, line, lp), Text(g));
    case MultiIf(branches, els) =>
      var (bodies, c1) := LowerBodies(cfg, branches, c, lp);
      var r := LowerElse(cfg, els, c1, lp);
      GenCountBodies(cfg, own, branches, c, lp, g);
      if els.ElseBlock? {
        GenCount(cfg, own, els.es, c1, lp, g);
      }
      IfCount(cfg, r.ctr.ifs, Conds(cfg, branches), bodies, els.ElseBlock?, r.code, Text(g));
      GenCountIf(r.ctr.ifs, g);
    case While(cond, body) =>
      var n := c.loops + 1;
      GenCount(cfg, own, body, c.(loops := n), Some(n), g);
      WhileCount(cfg, n, cond, LowerList(cfg, body, c.(loops := n), Some(n)).code, Text(g));
      if Text(g) == Text(LoopStart(n)) { TextInjective(g, LoopStart(n)); }
      if Text(g) == Text(LoopEnd(n)) { TextInjective(g, LoopEnd(n)); }
  }

  lemma GenCountIf(n: nat, g: Gen)
    ensures Text(g) == Text(IfEnd(n)) || (exists j: nat :: Text(g) == Text(IfSkip(n, j))) ==>
              (g.IfEnd? || g.IfSkip?) && g.n == n
  {
    if Text(g) == Text(IfEnd(n)) {
      TextInjective(g, IfEnd(n));
    }
    if j: nat :| Text(g) == Text(IfSkip(n, j)) {
      TextInjective(g, IfSkip(n, j));
    }
  }

  lemma {:induction false} GenCountBodies(cfg: Config, own: iset<string>, branches: seq<Branch>, c: Ctr,
                                          lp: Option<nat>, g: Gen)
    requires FaithfulBodies(cfg, own, branches, c, lp) && SrcCountBranches(branches, Text(g)) == 0
    ensures var r := LowerBodies(cfg, branches, c, lp); AtMostOnce(BodiesCount(r.0, 0, Text(g)), g, c, r.1)
    decreases branches, 1
  {
    if branches != [] {
      var c' := LowerList(cfg, branches[0].body, c, lp).ctr;
      GenCount(cfg, own, branches[0].body, c, lp, g);
      GenCountBodies(cfg, own, branches[1..], c', lp, g);
      var bodies := LowerBodies(cfg, branches, c, lp).0;
      assert bodies[1..] == LowerBodies(cfg, branches[1..], c', lp).0;
      BodiesCountTail(bodies, 0, Text(g));
    }
  }

  // ---- labels without clashes ----

  /** The labels that only the user has set: the code has as many lines with them as the program. */
  ghost function OwnLabels(cfg: Config, prog: seq<Element>): iset<string> {
    iset l: LabelName | LabelCount(LowerProgram(cfg, prog), l) == SrcCount(prog, l)
  }

  ghost predicate LabelsDistinct(cfg: Config, prog: seq<Element>) {
    forall l: LabelName {:trigger LabelCount(LowerProgram(cfg, prog), l)} :: LabelCount(LowerProgram(cfg, prog), l) <= 1
  }

  /** Programs that lowering is meant for: no label occurs twice in the code, and the gotos of the program name no label
      that the compiler has made up. */
  ghost predicate Lowerable(cfg: Config, prog: seq<Element>) {
    Faithful(cfg, OwnLabels(cfg, prog), prog, Ctr(0, 0), None) && LabelsDistinct(cfg, prog)
  }

  /** The labels of the user are distinct, and none of them looks like one of the compiler's. */
  ghost predicate CleanLabels(prog: seq<Element>) {
    forall l: LabelName :: SrcCount(prog, l) <= if Reserved(l) then 0 else 1
  }

  ghost function Unreserved(): iset<string> {
    iset l: LabelName | !Reserved(l)
  }

  /** A condition that can be read off the program: there is no clash if no label and no goto looks like the labels of
      the compiler. */
  lemma CleanIsLowerable(cfg: Config, prog: seq<Element>)
    requires Faithful(cfg, Unreserved(), prog, Ctr(0, 0), None) && CleanLabels(prog)
    ensures Lowerable(cfg, prog)
  {
    forall l: LabelName ensures LabelCount(LowerProgram(cfg, prog), l) <= 1 {
      if Reserved(l) {
        var g :| Text(g) == l;
        GenCount(cfg, Unreserved(), prog, Ctr(0, 0), None, g);
      } else {
        UserCount(cfg, Unreserved(), prog, Ctr(0, 0), None, l);
      }
    }
    forall l: LabelName | l in Unreserved() ensures l in OwnLabels(cfg, prog) {
      UserCount(cfg, Unreserved(), prog, Ctr(0, 0), None, l);
    }
    FaithfulGrows(cfg, Unreserved(), OwnLabels(cfg, prog), prog, Ctr(0, 0), None);
  }

  lemma OwnTargetsGrow(own: iset<string>, own': iset<string>, ss: seq<Stmt>)
    requires OwnTargets(own, ss) && own <= own'
    ensures OwnTargets(own', ss)
  {
    forall l ensures OwnTarget(own', ss, l) {
      assert OwnTarget(own, ss, l);
    }
  }

  lemma {:induction false} FaithfulGrows(cfg: Config, own: iset<string>, own': iset<string>, es: seq<Element>, c: Ctr,
                                         lp: Option<nat>)
    requires Faithful(cfg, own, es, c, lp) && own <= own'
    ensures Faithful(cfg, own', es, c, lp)
    decreases es, 0
  {
    if es != [] {
      ElemGrows(cfg, own, own', es[0], c, lp);
      FaithfulGrows(cfg, own, own', es[1..], LowerElem(cfg, es[0], c, lp).ctr, lp);
    }
  }

  lemma {:induction false} ElemGrows(cfg: Config, own: iset<string>, own': iset<string>, e: Element, c: Ctr,
                                     lp: Option<nat>)
    requires FaithfulElem(cfg, own, e, c, lp) && own <= own'
    ensures FaithfulElem(cfg, own', e, c, lp)
    decreases e, 2
  {
    match e
    case Plain(line) => OwnTargetsGrow(own, own', line.stmts);
    case MultiIf(branches, els) =>
      BodiesGrow(cfg, own, own', branches, c, lp);
      if els.ElseBlock? {
        FaithfulGrows(cfg, own, own', els.es, LowerBodies(cfg, branches, c, lp).1, lp);
      }
    case While(_, body) =>
      FaithfulGrows(cfg, own, own', body, c.(loops := c.loops + 1), Some(c.loops + 1));
  }

  lemma {:induction false} BodiesGrow(cfg: Config, own: iset<string>, own': iset<string>, branches: seq<Branch>, c: Ctr,
                                      lp: Option<nat>)
    requires FaithfulBodies(cfg, own, branches, c, lp) && own <= own'
    ensures FaithfulBodies(cfg, own', branches, c, lp)
    decreases branches, 1
  {
    if branches != [] {
      FaithfulGrows(cfg, own, own', branches[0].body, c, lp);
      BodiesGrow(cfg, own, own', branches[1..], LowerList(cfg, branches[0].body, c, lp).ctr, lp);
    }
  }
}
