/** Turning labels into line numbers (pkg/nolol/converter_gotos.go, findJumpLabels and replaceGotoLabels). */
module Numbering {
  import opened Ast
  import opened Operations
  import opened Semantics
  import opened Behaviour
  import opened Machine
  import opened Gotos

  /** Empty lines are dropped, unless nothing may be appended to them. */
  predicate Survives(l: Line) {
    l.stmts != [] || l.eol
  }

  /** How many of the first `i` lines survive. */
  function Surviving(p: seq<Line>, i: nat): (r: nat)
    requires i <= |p|
    ensures r <= i
  {
    if i == 0 then 0 else Surviving(p, i - 1) + if Survives(p[i - 1]) then 1 else 0
  }

  type JumpLabels = map<string, nat>

  datatype Numbered = Numbered(labels: JumpLabels, lines: seq<Line>)

  function EnterLabel(m: JumpLabels, l: Line, n: nat): JumpLabels {
    if l.lbl == "" then m else m[l.lbl := n]
  }

  /** The table of line numbers and the surviving lines; None if a label is declared twice. */
  function NumberFrom(p: seq<Line>, i: nat, acc: Numbered): Option<Numbered>
    requires i <= |p|
    decreases |p| - i
  {
    if i == |p| then Some(acc)
    else if p[i].lbl != "" && p[i].lbl in acc.labels then None
    else NumberFrom(p, i + 1, Numbered(
      EnterLabel(acc.labels, p[i], |acc.lines| + 1),
      if Survives(p[i]) then acc.lines + [p[i]] else acc.lines))
  }

  function FindLabels(p: seq<Line>): Option<Numbered> {
    NumberFrom(p, 0, Numbered(map[], []))
  }

  /** Fills the table and deletes the empty lines from the program while walking over it. */
  method FindJumpLabels(p: Program) returns (ok: bool, jumpLabels: JumpLabels)
    modifies p
    ensures ok <==> FindLabels(old(p.lines)).Some?
    ensures ok ==> FindLabels(old(p.lines)) == Some(Numbered(jumpLabels, p.lines))
  {
    jumpLabels := map[];
    var lineCounter := 0;
    var i := 0;
    ghost var k := 0;
    while i < |p.lines|
      invariant 0 <= i <= |p.lines| && k <= |old(p.lines)|
      invariant lineCounter == i && p.lines[i..] == old(p.lines)[k..]
      invariant FindLabels(old(p.lines)) == NumberFrom(old(p.lines), k, Numbered(jumpLabels, p.lines[..i]))
      decreases |old(p.lines)| - k
    {
      ghost var before := p.lines;
      var line := p.lines[i];
      assert line == p.lines[i..][0] == old(p.lines)[k];
      assert before[i + 1..] == before[i..][1..] == old(p.lines)[k..][1..];
      lineCounter := lineCounter + 1;
      if line.lbl != "" {
        if line.lbl in jumpLabels {
          return false, jumpLabels;
        }
        jumpLabels := jumpLabels[line.lbl := lineCounter];
      }
      if |line.stmts| == 0 && !line.eol {
        lineCounter := lineCounter - 1;
        p.lines := p.lines[..i] + p.lines[i + 1..];
        assert p.lines[..i] == before[..i] && p.lines[i..] == before[i + 1..];
      } else {
        i := i + 1;
        assert before[..i] == before[..i - 1] + [line];
      }
      k := k + 1;
    }
    assert p.lines[..i] == p.lines;
    ok := true;
  }

  // ---- replacing the labels of gotos ----

  function NumberStmt(m: JumpLabels, s: Stmt): Stmt
    requires UsedInStmt(s) <= m.Keys
    decreases s, 1
  {
    match s
    case GotoLabel(l) => Goto(Num(Itoa(m[l])))
    case If(c, t, e) => If(c, NumberStmts(m, t), NumberStmts(m, e))
    case _ => s
  }

  function NumberStmts(m: JumpLabels, ss: seq<Stmt>): (r: seq<Stmt>)
    requires UsedIn(ss) <= m.Keys
    ensures |r| == |ss|
    decreases ss, 0
  {
    if ss == [] then [] else [NumberStmt(m, ss[0])] + NumberStmts(m, ss[1..])
  }

  function NumberLines(m: JumpLabels, p: seq<Line>): (r: Code)
    requires Used(p) <= m.Keys
    ensures |r| == |p|
  {
    seq(|p|, i requires 0 <= i < |p| => NumberStmts(m, p[i].stmts))
  }

  method ReplaceInStmt(m: JumpLabels, s: Stmt) returns (ok: bool, r: Stmt)
    ensures ok <==> UsedInStmt(s) <= m.Keys
    ensures ok ==> r == NumberStmt(m, s)
    decreases s, 1
  {
    ok, r := true, s;
    match s
    case GotoLabel(l) =>
      if l !in m {
        return false, s;
      }
      r := Goto(Num(Itoa(m[l])));
    case If(c, t, e) =>
      var ok1, t' := ReplaceInStmts(m, t);
      var ok2, e' := ReplaceInStmts(m, e);
      ok, r := ok1 && ok2, If(c, t', e');
    case _ =>
  }

  method ReplaceInStmts(m: JumpLabels, ss: seq<Stmt>) returns (ok: bool, r: seq<Stmt>)
    ensures ok <==> UsedIn(ss) <= m.Keys
    ensures ok ==> r == NumberStmts(m, ss)
    decreases ss, 0
  {
    r := [];
    var j := 0;
    while j < |ss|
      invariant 0 <= j <= |ss|
      invariant UsedIn(ss) <= m.Keys <==> UsedIn(ss[j..]) <= m.Keys
      invariant UsedIn(ss) <= m.Keys ==> NumberStmts(m, ss) == r + NumberStmts(m, ss[j..])
    {
      var ok1, s := ReplaceInStmt(m, ss[j]);
      if !ok1 {
        return false, r;
      }
      r := r + [s];
      j := j + 1;
    }
    ok := true;
  }

  /** Fails if a goto names an unknown label. */
  method ReplaceGotoLabels(m: JumpLabels, p: Program) returns (ok: bool, code: Code)
    ensures ok <==> Used(p.lines) <= m.Keys
    ensures ok ==> code == NumberLines(m, p.lines)
  {
    code := [];
    var i := 0;
    while i < |p.lines|
      invariant 0 <= i <= |p.lines| && |code| == i
      invariant Used(p.lines) <= m.Keys <==> Used(p.lines[i..]) <= m.Keys
      invariant Used(p.lines) <= m.Keys ==> forall k :: 0 <= k < i ==> code[k] == NumberStmts(m, p.lines[k].stmts)
    {
      var ok1, ss := ReplaceInStmts(m, p.lines[i].stmts);
      if !ok1 {
        return false, code;
      }
      code := code + [ss];
      i := i + 1;
    }
    ok := true;
  }

  // ---- what the table says ----

  /** Line `k`, if it survives, is kept behind the surviving lines before it. */
  ghost predicate KeptAt(p: seq<Line>, k: nat, lines: seq<Line>)
    requires k < |p|
  {
    Survives(p[k]) ==> Surviving(p, k) < |lines| && lines[Surviving(p, k)] == p[k]
  }

  /** The label of line `k` has the number of the first surviving line from there on. */
  ghost predicate LabelAt(p: seq<Line>, k: nat, m: JumpLabels)
    requires k < |p|
  {
    p[k].lbl != "" ==> p[k].lbl in m && m[p[k].lbl] == Surviving(p, k) + 1
  }

  ghost predicate KeptUpTo(p: seq<Line>, i: nat, lines: seq<Line>)
    requires i <= |p|
  {
    |lines| == Surviving(p, i) && forall k {:trigger KeptAt(p, k, lines)} :: 0 <= k < i ==> KeptAt(p, k, lines)
  }

  ghost predicate LabelsUpTo(p: seq<Line>, i: nat, m: JumpLabels)
    requires i <= |p|
  {
    && (forall k {:trigger LabelAt(p, k, m)} :: 0 <= k < i ==> LabelAt(p, k, m))
    && (forall l {:trigger DeclaredUpTo(p, i, l)} :: l in m ==> l != "" && DeclaredUpTo(p, i, l))
  }

  ghost predicate DeclaredUpTo(p: seq<Line>, i: nat, l: string)
    requires i <= |p|
  {
    exists k :: 0 <= k < i && p[k].lbl == l
  }

  ghost predicate TableUpTo(p: seq<Line>, i: nat, acc: Numbered)
    requires i <= |p|
  {
    KeptUpTo(p, i, acc.lines) && LabelsUpTo(p, i, acc.labels)
  }

  lemma DeclaredStep(p: seq<Line>, i: nat, l: string)
    requires i < |p| && (DeclaredUpTo(p, i, l) || p[i].lbl == l)
    ensures DeclaredUpTo(p, i + 1, l)
  {
    if p[i].lbl != l {
      var k :| 0 <= k < i && p[k].lbl == l;
    }
  }

  lemma LabelStep(p: seq<Line>, i: nat, m: JumpLabels, k: nat)
    requires i < |p| && LabelsUpTo(p, i, m) && (p[i].lbl != "" ==> p[i].lbl !in m) && k <= i
    ensures LabelAt(p, k, EnterLabel(m, p[i], Surviving(p, i) + 1))
  {
    if k < i {
      assert LabelAt(p, k, m);
    }
  }

  lemma LabelsStep(p: seq<Line>, i: nat, m: JumpLabels)
    requires i < |p| && LabelsUpTo(p, i, m) && (p[i].lbl != "" ==> p[i].lbl !in m)
    ensures LabelsUpTo(p, i + 1, EnterLabel(m, p[i], Surviving(p, i) + 1))
  {
    var m' := EnterLabel(m, p[i], Surviving(p, i) + 1);
    forall k | 0 <= k < i + 1 ensures LabelAt(p, k, m') {
      LabelStep(p, i, m, k);
    }
    forall l | l in m' ensures l != "" && DeclaredUpTo(p, i + 1, l) {
      assert l in m ==> DeclaredUpTo(p, i, l);
      DeclaredStep(p, i, l);
    }
  }

  lemma KeptStep(p: seq<Line>, i: nat, lines: seq<Line>)
    requires i < |p| && KeptUpTo(p, i, lines)
    ensures KeptUpTo(p, i + 1, if Survives(p[i]) then lines + [p[i]] else lines)
  {
    var lines' := if Survives(p[i]) then lines + [p[i]] else lines;
    forall k | 0 <= k < i + 1 ensures KeptAt(p, k, lines') {
      if k < i {
        assert KeptAt(p, k, lines);
      }
    }
  }

  lemma {:induction false} SurvivingMonotone(p: seq<Line>, i: nat, j: nat)
    requires i <= j <= |p|
    ensures Surviving(p, i) <= Surviving(p, j)
    ensures i < j && Survives(p[i]) ==> Surviving(p, i) < Surviving(p, j)
    decreases j
  {
    if i < j {
      SurvivingMonotone(p, i, j - 1);
    }
  }

  lemma {:induction false} NumberFromTable(p: seq<Line>, i: nat, acc: Numbered)
    requires i <= |p| && TableUpTo(p, i, acc) && NumberFrom(p, i, acc).Some?
    ensures TableUpTo(p, |p|, NumberFrom(p, i, acc).value)
    decreases |p| - i
  {
    if i < |p| {
      var acc' := Numbered(EnterLabel(acc.labels, p[i], |acc.lines| + 1),
                           if Survives(p[i]) then acc.lines + [p[i]] else acc.lines);
      LabelsStep(p, i, acc.labels);
      KeptStep(p, i, acc.lines);
      NumberFromTable(p, i + 1, acc');
    }
  }

  /** Each label is given the number of the first surviving line at or behind the place where it stands,
      counted from 1, and the program consists of the surviving lines in their order. */
  lemma FindLabelsTable(p: seq<Line>)
    requires FindLabels(p).Some?
    ensures TableUpTo(p, |p|, FindLabels(p).value)
  {
    assert LabelsUpTo(p, 0, map[]) && KeptUpTo(p, 0, []);
    NumberFromTable(p, 0, Numbered(map[], []));
  }

  /** Every kept line is one of the original lines. */
  lemma {:induction false} SurvivorAt(p: seq<Line>, n: nat, i: nat) returns (k: nat)
    requires n <= |p| && i < Surviving(p, n)
    ensures k < n && Survives(p[k]) && Surviving(p, k) == i
  {
    if Surviving(p, n - 1) == i {
      k := n - 1;
    } else {
      k := SurvivorAt(p, n - 1, i);
    }
  }

  lemma {:induction false} UsedSomewhere(p: seq<Line>, l: LabelName) returns (i: nat)
    requires l in Used(p)
    ensures i < |p| && l in UsedIn(p[i].stmts)
  {
    if l in UsedIn(p[0].stmts) {
      i := 0;
    } else {
      i := UsedSomewhere(p[1..], l);
      i := i + 1;
    }
  }

  /** Lines without statements have no gotos. */
  lemma SurvivorsUsed(p: seq<Line>)
    requires FindLabels(p).Some?
    ensures Used(FindLabels(p).value.lines) == Used(p)
  {
    var q := FindLabels(p).value.lines;
    FindLabelsTable(p);
    forall l: LabelName | l in Used(q) ensures l in Used(p) {
      var i := UsedSomewhere(q, l);
      var k := SurvivorAt(p, |p|, i);
      assert KeptAt(p, k, q);
    }
    forall l: LabelName | l in Used(p) ensures l in Used(q) {
      var k := UsedSomewhere(p, l);
      assert KeptAt(p, k, q);
    }
  }

  /** At or behind line `k` there is a line that is not dropped. */
  ghost predicate HasLineBehind(p: seq<Line>, k: nat) {
    exists j: nat :: k <= j < |p| && Survives(p[j])
  }

  lemma LineBehind(p: seq<Line>, k: nat)
    requires k <= |p|
    ensures HasLineBehind(p, k) <==> Surviving(p, k) < Surviving(p, |p|)
  {
    SurvivingMonotone(p, k, |p|);
    if Surviving(p, k) < Surviving(p, |p|) {
      var j := SurvivorAt(p, |p|, Surviving(p, |p|) - 1);
      if j < k {
        SurvivingMonotone(p, j, k);
      }
    }
    if j: nat :| k <= j < |p| && Survives(p[j]) {
      SurvivingMonotone(p, k, j);
      SurvivingMonotone(p, j, |p|);
    }
  }

  // ---- the virtual machine runs the numbered program like the labelled one ----

  predicate LabelledStmt(s: Stmt)
    decreases s, 1
  {
    match s
    case Goto(_) => false
    case If(_, t, e) => Labelled(t) && Labelled(e)
    case _ => true
  }

  /** There are no gotos to line numbers, which NOLOL does not have. */
  predicate Labelled(ss: seq<Stmt>)
    decreases ss, 0
  {
    forall i :: 0 <= i < |ss| ==> LabelledStmt(ss[i])
  }

  ghost predicate LabelledProgram(p: seq<Line>) {
    forall i :: 0 <= i < |p| ==> Labelled(p[i].stmts)
  }

  /** Every line number fits into the 20 lines a goto can reach. */
  ghost predicate InRange(m: JumpLabels, used: set<LabelName>) {
    forall l :: l in used ==> l in m && 1 <= m[l] <= LAST_LINE
  }

  /** A goto that was given the number `n` continues at line `n` if and only if `n` is between 1 and 20. */
  lemma GotoLandsOnNumber(d: Decimals, n: nat, st: State)
    requires d.ReadsNaturals()
    ensures RunStmt(d, Goto(Num(Itoa(n))), st) == Result(JumpLine(Clamp(n)), st)
    ensures RunStmt(d, Goto(Num(Itoa(n))), st).sig.line == n <==> 1 <= n <= LAST_LINE
  {
  }

  function NumberedSignal(m: JumpLabels, s: Signal): Signal {
    match s
    case Jump(l) => if l in m && 1 <= m[l] <= LAST_LINE then JumpLine(m[l]) else Fail
    case _ => s
  }

  lemma {:induction false} NumberedRunStmt(d: Decimals, m: JumpLabels, s: Stmt, st: State)
    requires d.ReadsNaturals() && UsedInStmt(s) <= m.Keys && InRange(m, UsedInStmt(s)) && LabelledStmt(s)
    ensures RunStmt(d, NumberStmt(m, s), st) ==
            var r := RunStmt(d, s, st); Result(NumberedSignal(m, r.sig), r.st)
    decreases s, 1
  {
    match s
    case GotoLabel(l) => GotoLandsOnNumber(d, m[l], st);
    case If(c, t, e) =>
      NumberedRun(d, m, t, EvalCond(d, c, st).st);
      NumberedRun(d, m, e, EvalCond(d, c, st).st);
    case _ =>
  }

  lemma {:induction false} NumberedRun(d: Decimals, m: JumpLabels, ss: seq<Stmt>, st: State)
    requires d.ReadsNaturals() && UsedIn(ss) <= m.Keys && InRange(m, UsedIn(ss)) && Labelled(ss)
    ensures RunStmts(d, NumberStmts(m, ss), st) ==
            var r := RunStmts(d, ss, st); Result(NumberedSignal(m, r.sig), r.st)
    decreases ss, 0
  {
    if ss != [] {
      NumberedRunStmt(d, m, ss[0], st);
      NumberedRun(d, m, ss[1..], RunStmt(d, ss[0], st).st);
      assert NumberStmts(m, ss)[1..] == NumberStmts(m, ss[1..]);
    }
  }

  /** Execution walks over dropped lines without doing anything. */
  lemma {:induction false} SkipDropped(env: Env, p: seq<Line>, pc: nat, st: State) returns (j: nat, pc': nat)
    requires pc <= |p|
    ensures Steps(env, p, j, Run(pc, st)) == Run(pc', st)
    ensures pc' <= |p| && Surviving(p, pc') == Surviving(p, pc) && (pc' < |p| ==> Survives(p[pc']))
    decreases |p| - pc
  {
    if pc < |p| && !Survives(p[pc]) {
      assert Step(env, p, Run(pc, st)) == Run(pc + 1, st);
      j, pc' := SkipDropped(env, p, pc + 1, st);
      j := j + 1;
    } else {
      j, pc' := 0, pc;
    }
  }

  /** The virtual machine is about to run the same line. */
  ghost predicate SameLine(p: seq<Line>, c: Conf, c': Conf) {
    match c
    case Run(pc, st) => pc <= |p| && c' == Run(Surviving(p, pc), st) && (pc < |p| ==> Survives(p[pc]))
    case _ => c' == c
  }

  /** The virtual machine is about to run the line that the labelled program comes to next. */
  ghost predicate SamePlace(p: seq<Line>, c: Conf, c': Conf) {
    match c
    case Run(pc, st) => pc <= |p| && c' == Run(Surviving(p, pc), st)
    case _ => c' == c
  }

  lemma NumberedJump(env: Env, p: seq<Line>, m: JumpLabels, l: LabelName, st: State)
    requires LabelsUpTo(p, |p|, m) && l in m
    ensures AfterJump(p, l, st).Run? && m[l] == Surviving(p, AfterJump(p, l, st).pc) + 1
  {
    assert DeclaredUpTo(p, |p|, l);
    FindFirst(p, l);
    assert LabelAt(p, Find(p, l).value, m);
  }

  /** The kept line runs like the original one, apart from naming its target by number. */
  lemma NumberedLineRun(d: Decimals, p: seq<Line>, q: Numbered, pc: nat, st: State)
    requires KeptUpTo(p, |p|, q.lines) && Used(q.lines) <= q.labels.Keys && InRange(q.labels, Used(q.lines))
    requires d.ReadsNaturals() && LabelledProgram(p) && pc < |p| && Survives(p[pc])
    ensures Surviving(p, pc) < |q.lines|
    ensures var r := RunStmts(d, p[pc].stmts, st);
            && RunStmts(d, NumberLines(q.labels, q.lines)[Surviving(p, pc)], st)
               == Result(NumberedSignal(q.labels, r.sig), r.st)
            && !r.sig.JumpLine?
            && (r.sig.Jump? ==> r.sig.target in q.labels && 1 <= q.labels[r.sig.target] <= LAST_LINE)
  {
    assert KeptAt(p, pc, q.lines);
    NumberedRun(d, q.labels, p[pc].stmts, st);
    JumpUsed(d, p[pc].stmts, st);
    NoLineJump(d, p[pc].stmts, st);
  }

  /** Running a line, in both programs. */
  lemma NumberedLine(env: Env, p: seq<Line>, q: Numbered, pc: nat, st: State)
    requires TableUpTo(p, |p|, q) && Used(q.lines) <= q.labels.Keys && InRange(q.labels, Used(q.lines))
    requires env.d.ReadsNaturals() && !env.resume && LabelledProgram(p) && pc < |p| && Survives(p[pc])
    ensures SamePlace(p, Step(env, p, Run(pc, st)),
                      VmStep(env, NumberLines(q.labels, q.lines), Run(Surviving(p, pc), st)))
  {
    NumberedLineRun(env.d, p, q, pc, st);
    var code := NumberLines(q.labels, q.lines);
    SameAfterLine(env, p, q.labels, pc, RunStmts(env.d, p[pc].stmts, st), RunStmts(env.d, code[Surviving(p, pc)], st));
  }

  /** The ends of both lines lead to the same place. */
  lemma SameAfterLine(env: Env, p: seq<Line>, m: JumpLabels, pc: nat, r: Result, r': Result)
    requires LabelsUpTo(p, |p|, m) && !env.resume && pc < |p| && Survives(p[pc])
    requires r' == Result(NumberedSignal(m, r.sig), r.st) && !r.sig.JumpLine?
    requires r.sig.Jump? ==> r.sig.target in m && 1 <= m[r.sig.target] <= LAST_LINE
    ensures SamePlace(p, AfterLine(p, pc, r), VmAfterLine(env, Surviving(p, pc), r'))
  {
    if r.sig.Jump? {
      NumberedJump(env, p, m, r.sig.target, r.st);
    }
  }

  /** One step of the virtual machine, and the one or more steps of the labelled program it stands for. */
  lemma NumberedStep(env: Env, p: seq<Line>, q: Numbered, c: Conf, c': Conf) returns (j: nat)
    requires TableUpTo(p, |p|, q) && Used(q.lines) <= q.labels.Keys && InRange(q.labels, Used(q.lines))
    requires env.d.ReadsNaturals() && !env.resume && LabelledProgram(p) && SameLine(p, c, c')
    ensures j >= 1 && SameLine(p, Steps(env, p, j, c), VmStep(env, NumberLines(q.labels, q.lines), c'))
  {
    j := 1;
    var c1 := Step(env, p, c);
    assert Steps(env, p, 1, c) == Steps(env, p, 0, c1);
    if c.Run? {
      if c.pc < |p| {
        NumberedLine(env, p, q, c.pc, c.st);
      }
      assert SamePlace(p, c1, VmStep(env, NumberLines(q.labels, q.lines), c'));
      if c1.Run? {
        var k, pc' := SkipDropped(env, p, c1.pc, c1.st);
        StepsAdd(env, p, 1, k, c);
        j := 1 + k;
      }
    }
  }

  lemma {:induction false} NoLineJump(d: Decimals, ss: seq<Stmt>, st: State)
    requires Labelled(ss)
    ensures !RunStmts(d, ss, st).sig.JumpLine?
    decreases ss, 0
  {
    if ss != [] {
      if ss[0].If? {
        NoLineJump(d, ss[0].thn, EvalCond(d, ss[0].cond, st).st);
        NoLineJump(d, ss[0].els, EvalCond(d, ss[0].cond, st).st);
      }
      assert LabelledStmt(ss[0]);
      NoLineJump(d, ss[1..], RunStmt(d, ss[0], st).st);
    }
  }

  lemma {:induction false} NumberedMany(env: Env, p: seq<Line>, q: Numbered, n: nat, c: Conf, c': Conf) returns (m: nat)
    requires TableUpTo(p, |p|, q) && Used(q.lines) <= q.labels.Keys && InRange(q.labels, Used(q.lines))
    requires env.d.ReadsNaturals() && !env.resume && LabelledProgram(p) && SameLine(p, c, c')
    ensures m >= n && SameLine(p, Steps(env, p, m, c), VmSteps(env, NumberLines(q.labels, q.lines), n, c'))
  {
    if n == 0 {
      m := 0;
    } else {
      var code := NumberLines(q.labels, q.lines);
      var j := NumberedStep(env, p, q, c, c');
      var k := NumberedMany(env, p, q, n - 1, Steps(env, p, j, c), VmStep(env, code, c'));
      StepsAdd(env, p, j, k, c);
      m := j + k;
    }
  }

  /** Dropping empty lines and replacing labels by numbers preserves the meaning, provided that every
      number is one a goto can reach. */
  lemma NumberingEquivalent(env: Env, p: seq<Line>, st: State)
    requires env.d.ReadsNaturals() && !env.resume && LabelledProgram(p)
    requires FindLabels(p).Some?
    requires Used(FindLabels(p).value.lines) <= FindLabels(p).value.labels.Keys
    requires InRange(FindLabels(p).value.labels, Used(FindLabels(p).value.lines))
    ensures var q := FindLabels(p).value;
            Equivalent(Flat(env, p, st), Vm(env, NumberLines(q.labels, q.lines), st))
  {
    var q := FindLabels(p).value;
    var code := NumberLines(q.labels, q.lines);
    FindLabelsTable(p);
    var a, b := Flat(env, p, st), Vm(env, code, st);
    var j0, pc0 := SkipDropped(env, p, 0, st);
    forall n: nat ensures ShownLater(a, n, b(n)) {
      var m := NumberedMany(env, p, q, n, Run(pc0, st), Run(0, st));
      StepsAdd(env, p, j0, m, Run(0, st));
      assert a(j0 + m) == b(n);
    }
    FlatMonotone(env, p, st);
    LagEquivalent(a, b);
  }
}
