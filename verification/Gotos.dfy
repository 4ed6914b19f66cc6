/** The passes over gotos and labels (pkg/nolol/converter_gotos.go): redirecting goto chains, clearing
    unused labels, deleting gotos behind gotos. */
module Gotos {
  import opened Ast
  import opened Operations
  import opened Semantics
  import opened Behaviour
  import opened Machine

  // ---- redirecting goto chains ----

  /** The target of the goto that execution meets first, without doing anything before, when it arrives
      at line `i`. Empty lines are passed over unless nothing may be appended to them. */
  function FirstGoto(p: seq<Line>, i: nat): Option<LabelName>
    decreases |p| - i
  {
    if i >= |p| then None
    else if p[i].stmts != [] then
      if p[i].stmts[0].GotoLabel? then Some(p[i].stmts[0].target) else None
    else if p[i].eol then None
    else FirstGoto(p, i + 1)
  }

  function TargetGoto(p: seq<Line>, l: LabelName): Option<LabelName> {
    match Find(p, l)
    case None => None
    case Some(i) => FirstGoto(p, i)
  }

  /** The label a goto to `l` is given. */
  function Redirect(p: seq<Line>, l: LabelName): LabelName {
    match TargetGoto(p, l)
    case None => l
    case Some(t) => t
  }

  function RedirectStmt(p: seq<Line>, s: Stmt): Stmt
    decreases s, 1
  {
    match s
    case GotoLabel(l) => GotoLabel(Redirect(p, l))
    case If(c, t, e) => If(c, RedirectStmts(p, t), RedirectStmts(p, e))
    case _ => s
  }

  function RedirectStmts(p: seq<Line>, ss: seq<Stmt>): (r: seq<Stmt>)
    ensures |r| == |ss|
    decreases ss, 0
  {
    if ss == [] then [] else [RedirectStmt(p, ss[0])] + RedirectStmts(p, ss[1..])
  }

  /** The program with statement `j` of line `i` updated. */
  function RedirectAt(p: seq<Line>, i: nat, j: nat): (q: seq<Line>)
    requires i < |p| && j < |p[i].stmts|
    ensures |q| == |p| && |q[i].stmts| == |p[i].stmts|
  {
    var ss := p[i].stmts;
    p[i := p[i].(stmts := ss[j := RedirectStmt(p, ss[j])])]
  }

  /** The statements of line `i` are updated in place one after another: later lookups see the updates. */
  function RedirectLine(p: seq<Line>, i: nat, j: nat): (q: seq<Line>)
    requires i < |p| && j <= |p[i].stmts|
    ensures |q| == |p|
    decreases |p[i].stmts| - j
  {
    if j == |p[i].stmts| then p else RedirectLine(RedirectAt(p, i, j), i, j + 1)
  }

  function ResolveFrom(p: seq<Line>, i: nat): (q: seq<Line>)
    requires i <= |p|
    ensures |q| == |p|
    decreases |p| - i
  {
    if i == |p| then p else ResolveFrom(RedirectLine(p, i, 0), i + 1)
  }

  function ResolveChains(p: seq<Line>): seq<Line> {
    ResolveFrom(p, 0)
  }

  /** In `p`, a jump to `a` silently becomes a jump to `b` after `k` gotos. */
  ghost predicate Hops(p: seq<Line>, a: LabelName, b: LabelName, k: nat)
    decreases k
  {
    if k == 0 then a == b
    else TargetGoto(p, a).Some? && Hops(p, TargetGoto(p, a).value, b, k - 1)
  }

  ghost predicate Chain(p: seq<Line>, a: LabelName, b: LabelName) {
    exists k: nat :: Hops(p, a, b, k)
  }

  ghost predicate ChainStmt(p: seq<Line>, s: Stmt, s': Stmt)
    decreases s, 1
  {
    match s
    case GotoLabel(a) => s'.GotoLabel? && Chain(p, a, s'.target)
    case If(c, t, e) => s'.If? && s'.cond == c && ChainStmts(p, t, s'.thn) && ChainStmts(p, e, s'.els)
    case _ => s' == s
  }

  ghost predicate ChainStmts(p: seq<Line>, ss: seq<Stmt>, ss': seq<Stmt>)
    decreases ss, 0
  {
    |ss| == |ss'| && forall k :: 0 <= k < |ss| ==> ChainStmt(p, ss[k], ss'[k])
  }

  /** `q` is `p` with every goto redirected some way along the goto chain it starts in `p`. */
  ghost predicate ChainProgram(p: seq<Line>, q: seq<Line>) {
    |p| == |q| && forall i :: 0 <= i < |p| ==> ChainLine(p, p[i], q[i])
  }

  ghost predicate ChainLine(p: seq<Line>, l: Line, l': Line) {
    l'.lbl == l.lbl && l'.bol == l.bol && l'.eol == l.eol && ChainStmts(p, l.stmts, l'.stmts)
  }

  lemma ChainRefl(p: seq<Line>, a: LabelName)
    ensures Chain(p, a, a)
  {
    assert Hops(p, a, a, 0);
  }

  lemma ChainCons(p: seq<Line>, a: LabelName, z: LabelName, b: LabelName)
    requires TargetGoto(p, a) == Some(z) && Chain(p, z, b)
    ensures Chain(p, a, b)
  {
    var k: nat :| Hops(p, z, b, k);
    assert Hops(p, a, b, k + 1);
  }

  lemma {:induction false} ChainStmtRefl(p: seq<Line>, s: Stmt)
    ensures ChainStmt(p, s, s)
    decreases s, 1
  {
    match s
    case GotoLabel(a) => ChainRefl(p, a);
    case If(c, t, e) => ChainStmtsRefl(p, t); ChainStmtsRefl(p, e);
    case _ =>
  }

  lemma {:induction false} ChainStmtsRefl(p: seq<Line>, ss: seq<Stmt>)
    ensures ChainStmts(p, ss, ss)
    decreases ss, 0
  {
    forall k | 0 <= k < |ss| ensures ChainStmt(p, ss[k], ss[k]) {
      ChainStmtRefl(p, ss[k]);
    }
  }

  lemma {:induction false} FirstGotoChained(p: seq<Line>, q: seq<Line>, i: nat)
    requires ChainProgram(p, q)
    ensures FirstGoto(q, i).Some? <==> FirstGoto(p, i).Some?
    ensures FirstGoto(q, i).Some? ==> Chain(p, FirstGoto(p, i).value, FirstGoto(q, i).value)
    decreases |p| - i
  {
    if i < |p| {
      assert ChainLine(p, p[i], q[i]);
      if p[i].stmts != [] {
        assert ChainStmt(p, p[i].stmts[0], q[i].stmts[0]);
      } else if !p[i].eol {
        FirstGotoChained(p, q, i + 1);
      }
    }
  }

  lemma {:induction false} FindFromSameLabels(p: seq<Line>, q: seq<Line>, l: LabelName, i: nat)
    requires |p| == |q| && i <= |p| && forall j :: i <= j < |p| ==> q[j].lbl == p[j].lbl
    ensures FindFrom(q, l, i) == FindFrom(p, l, i)
    decreases |p| - i
  {
    if i < |p| {
      FindFromSameLabels(p, q, l, i + 1);
    }
  }

  lemma FindChained(p: seq<Line>, q: seq<Line>, l: LabelName)
    requires ChainProgram(p, q)
    ensures Find(q, l) == Find(p, l)
  {
    forall j | 0 <= j < |p| ensures q[j].lbl == p[j].lbl {
      assert ChainLine(p, p[j], q[j]);
    }
    FindFromSameLabels(p, q, l, 0);
  }

  /** Looking a label up in the partly redirected program still leads along a chain of the original. */
  lemma RedirectChain(p: seq<Line>, q: seq<Line>, a: LabelName)
    requires ChainProgram(p, q)
    ensures Chain(p, a, Redirect(q, a))
  {
    FindChained(p, q, a);
    ChainRefl(p, a);
    if Find(p, a).Some? {
      var i := Find(p, a).value;
      FirstGotoChained(p, q, i);
      if FirstGoto(p, i).Some? {
        ChainCons(p, a, FirstGoto(p, i).value, Redirect(q, a));
      }
    }
  }

  lemma {:induction false} RedirectStmtChain(p: seq<Line>, q: seq<Line>, s: Stmt)
    requires ChainProgram(p, q)
    ensures ChainStmt(p, s, RedirectStmt(q, s))
    decreases s, 1
  {
    match s
    case GotoLabel(a) => RedirectChain(p, q, a);
    case If(c, t, e) => RedirectStmtsChain(p, q, t); RedirectStmtsChain(p, q, e);
    case _ =>
  }

  lemma {:induction false} RedirectStmtsChain(p: seq<Line>, q: seq<Line>, ss: seq<Stmt>)
    requires ChainProgram(p, q)
    ensures ChainStmts(p, ss, RedirectStmts(q, ss))
    decreases ss, 0
  {
    var ss' := RedirectStmts(q, ss);
    forall k | 0 <= k < |ss| ensures ChainStmt(p, ss[k], ss'[k]) {
      RedirectStmtsAt(q, ss, k);
      RedirectStmtChain(p, q, ss[k]);
    }
  }

  lemma {:induction false} RedirectStmtsAt(p: seq<Line>, ss: seq<Stmt>, k: nat)
    requires k < |ss|
    ensures RedirectStmts(p, ss)[k] == RedirectStmt(p, ss[k])
  {
    if k > 0 {
      RedirectStmtsAt(p, ss[1..], k - 1);
    }
  }

  lemma {:induction false} RedirectLineChain(p: seq<Line>, q: seq<Line>, i: nat, j: nat)
    requires ChainProgram(p, q) && i < |p| && j <= |p[i].stmts| && q[i].stmts[j..] == p[i].stmts[j..]
    ensures ChainProgram(p, RedirectLine(q, i, j))
    ensures forall k :: 0 <= k < |p| && k != i ==> RedirectLine(q, i, j)[k] == q[k]
    decreases |p[i].stmts| - j
  {
    assert ChainLine(p, p[i], q[i]);
    if j < |p[i].stmts| {
      assert q[i].stmts[j] == p[i].stmts[j] by {
        assert q[i].stmts[j..][0] == p[i].stmts[j..][0];
      }
      RedirectStmtChain(p, q, p[i].stmts[j]);
      var q' := RedirectAt(q, i, j);
      assert ChainLine(p, p[i], q'[i]);
      assert forall k :: 0 <= k < |p| && k != i ==> q'[k] == q[k];
      assert q'[i].stmts[j + 1..] == q[i].stmts[j..][1..];
      RedirectLineChain(p, q', i, j + 1);
    }
  }

  lemma {:induction false} ResolveFromChain(p: seq<Line>, q: seq<Line>, i: nat)
    requires ChainProgram(p, q) && i <= |p| && forall j :: i <= j < |p| ==> q[j] == p[j]
    ensures ChainProgram(p, ResolveFrom(q, i))
    decreases |p| - i
  {
    if i < |p| {
      RedirectLineChain(p, q, i, 0);
      ResolveFromChain(p, RedirectLine(q, i, 0), i + 1);
    }
  }

  lemma ResolveChainsChain(p: seq<Line>)
    ensures ChainProgram(p, ResolveChains(p))
  {
    forall i | 0 <= i < |p| ensures ChainLine(p, p[i], p[i]) {
      ChainStmtsRefl(p, p[i].stmts);
    }
    ResolveFromChain(p, p, 0);
  }

  /** Signals that differ only by how far a jump has followed its chain. */
  ghost predicate ChainResult(p: seq<Line>, r: Result, r': Result) {
    r'.st == r.st &&
    (r'.sig == r.sig || (r.sig.Jump? && r'.sig.Jump? && Chain(p, r.sig.target, r'.sig.target)))
  }

  lemma {:induction false} ChainRunStmt(d: Decimals, p: seq<Line>, s: Stmt, s': Stmt, st: State)
    requires ChainStmt(p, s, s')
    ensures ChainResult(p, RunStmt(d, s, st), RunStmt(d, s', st))
    decreases s, 1
  {
    match s
    case If(c, t, e) =>
      var st' := EvalCond(d, c, st).st;
      ChainRunStmts(d, p, t, s'.thn, st');
      ChainRunStmts(d, p, e, s'.els, st');
    case _ =>
  }

  lemma {:induction false} ChainRunStmts(d: Decimals, p: seq<Line>, ss: seq<Stmt>, ss': seq<Stmt>, st: State)
    requires ChainStmts(p, ss, ss')
    ensures ChainResult(p, RunStmts(d, ss, st), RunStmts(d, ss', st))
    decreases ss, 0
  {
    if ss != [] {
      ChainRunStmt(d, p, ss[0], ss'[0], st);
      ChainRunStmts(d, p, ss[1..], ss'[1..], RunStmt(d, ss[0], st).st);
    }
  }

  /** Arriving at a line from which the first thing met is a goto, execution makes that jump. */
  lemma {:induction false} FirstGotoRuns(env: Env, p: seq<Line>, i: nat, st: State) returns (j: nat)
    requires FirstGoto(p, i).Some?
    ensures Steps(env, p, j, Run(i, st)) == AfterJump(p, FirstGoto(p, i).value, st)
    decreases |p| - i
  {
    if p[i].stmts == [] {
      assert Step(env, p, Run(i, st)) == Run(i + 1, st);
      j := FirstGotoRuns(env, p, i + 1, st);
      j := j + 1;
    } else {
      assert RunStmts(env.d, p[i].stmts, st) == Result(Jump(p[i].stmts[0].target), st);
      j := 1;
      assert Steps(env, p, 1, Run(i, st)) == Steps(env, p, 0, Step(env, p, Run(i, st)));
    }
  }

  lemma {:induction false} HopsRun(env: Env, p: seq<Line>, a: LabelName, b: LabelName, k: nat,
                                   st: State) returns (j: nat)
    requires Hops(p, a, b, k)
    ensures Steps(env, p, j, AfterJump(p, a, st)) == AfterJump(p, b, st)
    decreases k
  {
    if k == 0 {
      j := 0;
    } else {
      var z := TargetGoto(p, a).value;
      var j1 := FirstGotoRuns(env, p, Find(p, a).value, st);
      var j2 := HopsRun(env, p, z, b, k - 1, st);
      StepsAdd(env, p, j1, j2, AfterJump(p, a, st));
      j := j1 + j2;
    }
  }

  lemma ChainStep(env: Env, p: seq<Line>, q: seq<Line>, c: Conf) returns (j: nat)
    requires ChainProgram(p, q)
    ensures j >= 1 && Steps(env, p, j, c) == Step(env, q, c)
  {
    j := 1;
    assert Steps(env, p, 1, c) == Steps(env, p, 0, Step(env, p, c));
    if c.Run? && c.pc < |p| {
      assert ChainLine(p, p[c.pc], q[c.pc]);
      ChainRunStmts(env.d, p, p[c.pc].stmts, q[c.pc].stmts, c.st);
      var r, r' := RunStmts(env.d, p[c.pc].stmts, c.st), RunStmts(env.d, q[c.pc].stmts, c.st);
      if r.sig != r'.sig {
        var k: nat :| Hops(p, r.sig.target, r'.sig.target, k);
        var i := HopsRun(env, p, r.sig.target, r'.sig.target, k, r.st);
        FindChained(p, q, r'.sig.target);
        j := 1 + i;
      } else if r.sig.Jump? {
        FindChained(p, q, r.sig.target);
      }
    }
  }

  lemma ChainEquivalent(env: Env, p: seq<Line>, q: seq<Line>, st: State)
    requires ChainProgram(p, q)
    ensures Equivalent(Flat(env, p, st), Flat(env, q, st))
  {
    var rel := (c: Conf, c': Conf) => c == c';
    forall c, c' | rel(c, c') ensures FollowsFrom(env, p, rel, c, Step(env, q, c')) {
      var j := ChainStep(env, p, q, c);
      assert rel(Steps(env, p, j, c), Step(env, q, c'));
    }
    FollowsEquivalent(env, p, q, rel, st);
  }

  /** Redirecting goto chains, cyclic ones included, changes nothing but the number of silent jumps. */
  lemma ResolveChainsEquivalent(env: Env, p: seq<Line>, st: State)
    ensures Equivalent(Flat(env, p, st), Flat(env, ResolveChains(p), st))
  {
    ResolveChainsChain(p);
    ChainEquivalent(env, p, ResolveChains(p), st);
  }

  /** Scans the lines for the label, then for the first statement behind it. */
  method GetTargetGoto(p: Program, l: LabelName) returns (r: Option<LabelName>)
    ensures r == TargetGoto(p.lines, l)
  {
    var foundLabel := false;
    var i := 0;
    while i < |p.lines|
      invariant 0 <= i <= |p.lines|
      invariant !foundLabel ==> Find(p.lines, l) == FindFrom(p.lines, l, i)
      invariant foundLabel ==> TargetGoto(p.lines, l) == FirstGoto(p.lines, i)
    {
      if p.lines[i].lbl == l {
        foundLabel := true;
      }
      if foundLabel {
        if |p.lines[i].stmts| > 0 {
          if p.lines[i].stmts[0].GotoLabel? {
            return Some(p.lines[i].stmts[0].target);
          }
          break;
        }
        if p.lines[i].eol {
          break;
        }
      }
      i := i + 1;
    }
    r := None;
  }

  method RedirectGoto(p: Program, s: Stmt) returns (r: Stmt)
    ensures r == RedirectStmt(p.lines, s)
    decreases s, 1
  {
    r := s;
    match s
    case GotoLabel(l) =>
      var target := GetTargetGoto(p, l);
      if target.Some? {
        r := GotoLabel(target.value);
      }
    case If(c, t, e) =>
      var t' := RedirectGotos(p, t);
      var e' := RedirectGotos(p, e);
      r := If(c, t', e');
    case _ =>
  }

  method RedirectGotos(p: Program, ss: seq<Stmt>) returns (r: seq<Stmt>)
    ensures r == RedirectStmts(p.lines, ss)
    decreases ss, 0
  {
    r := [];
    var j := 0;
    while j < |ss|
      invariant 0 <= j <= |ss|
      invariant RedirectStmts(p.lines, ss) == r + RedirectStmts(p.lines, ss[j..])
    {
      var s := RedirectGoto(p, ss[j]);
      r := r + [s];
      j := j + 1;
    }
  }

  /** Visits every goto in program order and relabels it in place. */
  method ResolveGotoChains(p: Program)
    modifies p
    ensures p.lines == ResolveChains(old(p.lines))
  {
    var i := 0;
    while i < |p.lines|
      invariant 0 <= i <= |p.lines|
      invariant ResolveFrom(p.lines, i) == ResolveChains(old(p.lines))
    {
      var j := 0;
      while j < |p.lines[i].stmts|
        invariant i < |p.lines| && 0 <= j <= |p.lines[i].stmts|
        invariant ResolveFrom(RedirectLine(p.lines, i, j), i + 1) == ResolveChains(old(p.lines))
        decreases |p.lines[i].stmts| - j
      {
        var s := RedirectGoto(p, p.lines[i].stmts[j]);
        p.lines := p.lines[i := p.lines[i].(stmts := p.lines[i].stmts[j := s])];
        j := j + 1;
      }
      i := i + 1;
    }
  }

  // ---- clearing unused labels ----

  function UsedInStmt(s: Stmt): set<LabelName>
    decreases s, 1
  {
    match s
    case GotoLabel(l) => {l}
    case If(_, t, e) => UsedIn(t) + UsedIn(e)
    case _ => {}
  }

  function UsedIn(ss: seq<Stmt>): set<LabelName>
    decreases ss, 0
  {
    if ss == [] then {} else UsedInStmt(ss[0]) + UsedIn(ss[1..])
  }

  function Used(p: seq<Line>): (r: set<LabelName>)
    ensures forall i :: 0 <= i < |p| ==> UsedIn(p[i].stmts) <= r
  {
    if p == [] then {}
    else
      var r := UsedIn(p[0].stmts) + Used(p[1..]);
      assert forall i :: 0 < i < |p| ==> p[i] == p[1..][i - 1];
      r
  }

  function ClearLabel(l: Line, used: set<LabelName>): Line {
    if l.lbl in used then l else l.(lbl := "")
  }

  function ClearUnused(p: seq<Line>): seq<Line> {
    seq(|p|, i requires 0 <= i < |p| => ClearLabel(p[i], Used(p)))
  }

  method RemoveUnusedLabels(p: Program)
    modifies p
    ensures p.lines == ClearUnused(old(p.lines))
  {
    var used: set<LabelName> := {};
    var i := 0;
    while i < |p.lines|
      invariant 0 <= i <= |p.lines| && p.lines == old(p.lines)
      invariant Used(p.lines) == used + Used(p.lines[i..])
    {
      used := used + UsedIn(p.lines[i].stmts);
      i := i + 1;
    }
    i := 0;
    while i < |p.lines|
      invariant |p.lines| == |old(p.lines)| && 0 <= i <= |p.lines|
      invariant forall j :: 0 <= j < |p.lines| ==>
                  p.lines[j] == if j < i then ClearLabel(old(p.lines)[j], used) else old(p.lines)[j]
    {
      p.lines := p.lines[i := ClearLabel(p.lines[i], used)];
      i := i + 1;
    }
  }

  lemma {:induction false} JumpStmtUsed(d: Decimals, s: Stmt, st: State)
    ensures RunStmt(d, s, st).sig.Jump? ==> RunStmt(d, s, st).sig.target in UsedInStmt(s)
    decreases s, 1
  {
    match s
    case If(c, t, e) =>
      JumpUsed(d, t, EvalCond(d, c, st).st);
      JumpUsed(d, e, EvalCond(d, c, st).st);
    case _ =>
  }

  lemma {:induction false} JumpUsed(d: Decimals, ss: seq<Stmt>, st: State)
    ensures RunStmts(d, ss, st).sig.Jump? ==> RunStmts(d, ss, st).sig.target in UsedIn(ss)
    decreases ss, 0
  {
    if ss != [] {
      JumpStmtUsed(d, ss[0], st);
      JumpUsed(d, ss[1..], RunStmt(d, ss[0], st).st);
    }
  }

  lemma {:induction false} FindUsed(p: seq<Line>, l: LabelName, used: set<LabelName>, q: seq<Line>, i: nat)
    requires l in used && i <= |p| == |q|
    requires forall j :: 0 <= j < |p| ==> q[j] == ClearLabel(p[j], used)
    ensures FindFrom(q, l, i) == FindFrom(p, l, i)
    decreases |p| - i
  {
    if i < |p| {
      FindUsed(p, l, used, q, i + 1);
    }
  }

  lemma ClearUnusedStep(env: Env, p: seq<Line>, c: Conf)
    ensures Step(env, ClearUnused(p), c) == Step(env, p, c)
  {
    if c.Run? && c.pc < |p| {
      JumpUsed(env.d, p[c.pc].stmts, c.st);
      var r := RunStmts(env.d, p[c.pc].stmts, c.st);
      if r.sig.Jump? {
        FindUsed(p, r.sig.target, Used(p), ClearUnused(p), 0);
      }
    }
  }

  /** A label that no goto names can be dropped. */
  lemma ClearUnusedEquivalent(env: Env, p: seq<Line>, st: State)
    ensures Equivalent(Flat(env, p, st), Flat(env, ClearUnused(p), st))
  {
    var inv := (c: Conf) => true;
    forall c | inv(c) ensures SameStep(env, p, ClearUnused(p), inv, c) {
      ClearUnusedStep(env, p, c);
    }
    SameStepsEquivalent(env, p, ClearUnused(p), inv, st);
  }

  // ---- deleting gotos that directly follow a goto ----

  /** The remaining statements, and whether the last thing seen was a goto. */
  datatype Deduped = Deduped(stmts: seq<Stmt>, last: bool)

  function DedupStmt(s: Stmt): Stmt
    decreases s, 1
  {
    match s
    case If(c, t, e) => If(c, DedupStmts(t, false).stmts, DedupStmts(e, false).stmts)
    case _ => s
  }

  function DedupStmts(ss: seq<Stmt>, last: bool): Deduped
    decreases ss, 0
  {
    if ss == [] then Deduped([], last)
    else
      var r := DedupStmts(ss[1..], ss[0].GotoLabel?);
      if ss[0].GotoLabel? && last then r else Deduped([DedupStmt(ss[0])] + r.stmts, r.last)
  }

  /** Whether a goto is the last thing seen when line `i` begins; a label starts afresh. */
  function GotoBefore(p: seq<Line>, i: nat): bool
    requires i < |p|
  {
    i > 0 && p[i].lbl == "" && DedupStmts(p[i - 1].stmts, GotoBefore(p, i - 1)).last
  }

  function Dedup(p: seq<Line>): seq<Line> {
    seq(|p|, i requires 0 <= i < |p| => p[i].(stmts := DedupStmts(p[i].stmts, GotoBefore(p, i)).stmts))
  }

  method DedupNested(s: Stmt) returns (r: Stmt)
    ensures r == DedupStmt(s)
    decreases s, 1
  {
    r := s;
    match s
    case If(c, t, e) =>
      var t', _ := DedupList(t, false);
      var e', _ := DedupList(e, false);
      r := If(c, t', e');
    case _ =>
  }

  /** Walks over a list of statements and cuts the deleted ones out of it. */
  method DedupList(ss: seq<Stmt>, last: bool) returns (list: seq<Stmt>, lastWasGoto: bool)
    ensures Deduped(list, lastWasGoto) == DedupStmts(ss, last)
    decreases ss, 0
  {
    list, lastWasGoto := ss, last;
    var i := 0;
    ghost var kept, at := [], 0;
    while i < |list|
      invariant i == |kept| && at <= |ss| && list == kept + ss[at..]
      invariant DedupStmts(ss, last) == Prefixed(kept, DedupStmts(ss[at..], lastWasGoto))
      decreases |ss| - at
    {
      var s := list[i];
      Cut(list, kept, ss[at..]);
      assert s == ss[at] && ss[at..][1..] == ss[at + 1..];
      if s.GotoLabel? && lastWasGoto {
        list := list[..i] + list[i + 1..];
      } else {
        var r := DedupNested(s);
        PrefixedStep(kept, ss[at..], lastWasGoto);
        list := list[i := r];
        kept := kept + [r];
        lastWasGoto := s.GotoLabel?;
        i := i + 1;
      }
      at := at + 1;
    }
  }

  /** Deleting or replacing the element in the middle. */
  lemma Cut(list: seq<Stmt>, kept: seq<Stmt>, rest: seq<Stmt>)
    requires list == kept + rest && rest != []
    ensures list[|kept|] == rest[0] && list[..|kept|] + list[|kept| + 1..] == kept + rest[1..]
    ensures forall r :: list[|kept| := r] == kept + [r] + rest[1..]
  {
  }

  ghost function Prefixed(kept: seq<Stmt>, r: Deduped): Deduped {
    Deduped(kept + r.stmts, r.last)
  }

  lemma PrefixedStep(kept: seq<Stmt>, rest: seq<Stmt>, last: bool)
    requires rest != [] && !(rest[0].GotoLabel? && last)
    ensures Prefixed(kept, DedupStmts(rest, last)) ==
            Prefixed(kept + [DedupStmt(rest[0])], DedupStmts(rest[1..], rest[0].GotoLabel?))
  {
  }

  method RemoveDuplicateGotos(p: Program)
    modifies p
    ensures p.lines == Dedup(old(p.lines))
  {
    var lastWasGoto := false;
    var i := 0;
    while i < |p.lines|
      invariant |p.lines| == |old(p.lines)| && 0 <= i <= |p.lines|
      invariant lastWasGoto == (i > 0 && DedupStmts(old(p.lines)[i - 1].stmts, GotoBefore(old(p.lines), i - 1)).last)
      invariant forall j :: 0 <= j < |p.lines| ==>
                  p.lines[j] == if j < i then Dedup(old(p.lines))[j] else old(p.lines)[j]
    {
      if p.lines[i].lbl != "" {
        lastWasGoto := false;
      }
      var list, last := DedupList(p.lines[i].stmts, lastWasGoto);
      p.lines := p.lines[i := p.lines[i].(stmts := list)];
      lastWasGoto := last;
      i := i + 1;
    }
  }

  lemma {:induction false} DedupStmtRun(d: Decimals, s: Stmt, st: State)
    ensures RunStmt(d, DedupStmt(s), st) == RunStmt(d, s, st)
    decreases s, 1
  {
    if s.If? {
      DedupRun(d, s.thn, EvalCond(d, s.cond, st).st);
      DedupRun(d, s.els, EvalCond(d, s.cond, st).st);
    }
  }

  /** Behind anything but a goto, the shortened statements do the same, and they can only end in a goto
      if control never falls off their end. */
  lemma {:induction false} DedupRun(d: Decimals, ss: seq<Stmt>, st: State)
    ensures RunStmts(d, DedupStmts(ss, false).stmts, st) == RunStmts(d, ss, st)
    ensures DedupStmts(ss, false).last ==> RunStmts(d, ss, st).sig != Next
    decreases ss, 0
  {
    if ss != [] && !ss[0].GotoLabel? {
      var q := DedupStmts(ss, false).stmts;
      DedupStmtRun(d, ss[0], st);
      assert q[0] == DedupStmt(ss[0]) && q[1..] == DedupStmts(ss[1..], false).stmts;
      DedupRun(d, ss[1..], RunStmt(d, ss[0], st).st);
    }
  }

  /** A line that begins right behind a goto is never reached. */
  predicate Reachable(p: seq<Line>, c: Conf) {
    c.Run? && c.pc < |p| ==> !GotoBefore(p, c.pc)
  }

  lemma {:induction false} FindFromDedup(p: seq<Line>, l: LabelName, i: nat)
    requires i <= |p|
    ensures FindFrom(Dedup(p), l, i) == FindFrom(p, l, i)
    decreases |p| - i
  {
    if i < |p| {
      FindFromDedup(p, l, i + 1);
    }
  }

  lemma DedupStep(env: Env, p: seq<Line>, c: Conf)
    requires Reachable(p, c)
    ensures Step(env, Dedup(p), c) == Step(env, p, c) && Reachable(p, Step(env, p, c))
  {
    if c.Run? && c.pc < |p| {
      DedupRun(env.d, p[c.pc].stmts, c.st);
      var r := RunStmts(env.d, p[c.pc].stmts, c.st);
      if r.sig.Jump? {
        FindFromDedup(p, r.sig.target, 0);
      }
    }
  }

  /** Deleting the gotos behind gotos changes nothing, even where the deleted one starts the next line. */
  lemma DedupEquivalent(env: Env, p: seq<Line>, st: State)
    ensures Equivalent(Flat(env, p, st), Flat(env, Dedup(p), st))
  {
    var inv := c => Reachable(p, c);
    forall c | inv(c) ensures SameStep(env, p, Dedup(p), inv, c) {
      DedupStep(env, p, c);
    }
    SameStepsEquivalent(env, p, Dedup(p), inv, st);
  }
}
