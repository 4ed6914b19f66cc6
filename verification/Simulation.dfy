/** Code that stands for a structured program does what the program promises. */
module Simulation {
  import opened Ast
  import opened Semantics
  import opened Behaviour
  import opened Machine
  import opened Nolol
  import opened Silence
  import opened Standing

  // ---- matching places of the program with positions in the code ----

  /** The code for `es` stands at `p`, and what follows it is the code for `k`. */
  ghost predicate MatchAt(w: Site, es: seq<Element>, k: Kont, p: nat, lp: Option<Exits>)
    decreases k, 1
  {
    exists q: nat :: ListAt(w, es, lp, p, q) && MatchKont(w, k, q, lp)
  }

  /** What execution does from `pc` on is what `k` says. */
  ghost predicate MatchKont(w: Site, k: Kont, pc: nat, lp: Option<Exits>)
    decreases k, 0
  {
    match k
    case Stop => lp == None && Silent(w.f, pc, |w.f|)
    case Then(es, k') => exists p: nat :: Silent(w.f, pc, p) && MatchAt(w, es, k', p, lp)
    case Loop(e, k') => lp.Some? && exists p: nat :: Silent(w.f, pc, p) && LoopAt(w, e, k', p, lp.value)
  }

  /** The loop with the labels `x` stands at `p`, followed by the code for `k`. */
  ghost predicate LoopAt(w: Site, e: Element, k: Kont, p: nat, x: Exits)
    decreases k, 1
  {
    exists q: nat, lp: Option<Exits> :: WhileAt(w, e, x, p, q) && MatchKont(w, k, q, lp)
  }

  ghost predicate Match(w: Site, s: SConf, c: Conf) {
    match s
    case SRun(es, k, st) => (es == [] ==> k == Stop) && c.Run? && c.st == st && MatchSome(w, es, k, c.pc)
    case SHalt(st) => c == Halt(st)
    case SCrash(_) => c.Crash?
  }

  ghost predicate MatchSome(w: Site, es: seq<Element>, k: Kont, pc: nat) {
    exists p: nat, lp: Option<Exits> :: Silent(w.f, pc, p) && MatchAt(w, es, k, p, lp)
  }

  lemma MatchKontMove(w: Site, k: Kont, pc: nat, pc': nat, lp: Option<Exits>)
    requires Silent(w.f, pc, pc') && MatchKont(w, k, pc', lp)
    ensures MatchKont(w, k, pc, lp)
  {
    match k
    case Stop => SilentTransitive(w.f, pc, pc', |w.f|);
    case Then(es, k') =>
      var p: nat :| Silent(w.f, pc', p) && MatchAt(w, es, k', p, lp);
      SilentTransitive(w.f, pc, pc', p);
    case Loop(e, k') =>
      var p: nat :| Silent(w.f, pc', p) && LoopAt(w, e, k', p, lp.value);
      SilentTransitive(w.f, pc, pc', p);
  }

  // ---- leaving and entering blocks ----

  /** Leaving a block leads to the place its continuation names. */
  lemma {:induction false} MatchLeave(w: Site, k: Kont, pc: nat, lp: Option<Exits>, st: State)
    requires MatchKont(w, k, pc, lp)
    ensures Match(w, Go([], k, st), Run(pc, st))
    decreases k
  {
    match k
    case Stop =>
      SilentRefl(w.f, |w.f|);
      assert ListAt(w, [], None, |w.f|, |w.f|);
      assert MatchAt(w, [], Stop, |w.f|, None);
    case Then(es, k') =>
      var p: nat :| Silent(w.f, pc, p) && MatchAt(w, es, k', p, lp);
      assert Go([], k, st) == Go(es, k', st);
      assert MatchSome(w, es, k', pc);
      if es == [] {
        MatchEmpty(w, k', p, lp);
        MatchKontMove(w, k', pc, p, lp);
        MatchLeave(w, k', pc, lp, st);
      }
    case Loop(e, k') =>
      var p: nat :| Silent(w.f, pc, p) && LoopAt(w, e, k', p, lp.value);
      var lp' := LoopIsAt(w, e, k', p, lp.value);
  }

  lemma MatchEmpty(w: Site, k: Kont, p: nat, lp: Option<Exits>)
    requires MatchAt(w, [], k, p, lp)
    ensures MatchKont(w, k, p, lp)
  {
    var q: nat :| ListAt(w, [], lp, p, q) && MatchKont(w, k, q, lp);
  }

  lemma LoopIsAt(w: Site, e: Element, k: Kont, p: nat, x: Exits) returns (lp: Option<Exits>)
    requires LoopAt(w, e, k, p, x)
    ensures MatchAt(w, [e], k, p, lp)
  {
    var q: nat;
    q, lp :| WhileAt(w, e, x, p, q) && MatchKont(w, k, q, lp);
    assert [e][1..] == [];
    assert ListAt(w, [], lp, q, q);
    assert ElemAt(w, [e][0], lp, p, q);
    assert ListAt(w, [e], lp, p, q);
  }

  lemma MatchGo(w: Site, es: seq<Element>, k: Kont, p: nat, lp: Option<Exits>, st: State)
    requires MatchAt(w, es, k, p, lp)
    ensures Match(w, Go(es, k, st), Run(p, st))
  {
    SilentRefl(w.f, p);
    if es == [] {
      MatchEmpty(w, k, p, lp);
      MatchLeave(w, k, p, lp, st);
    }
  }

  /** The code of a list is the code of its first element followed by the code of the rest. */
  lemma MatchSplit(w: Site, es: seq<Element>, k: Kont, p: nat, lp: Option<Exits>) returns (m: nat)
    requires es != [] && MatchAt(w, es, k, p, lp)
    ensures ElemAt(w, es[0], lp, p, m) && MatchAt(w, es[1..], k, m, lp) && MatchKont(w, Then(es[1..], k), m, lp)
  {
    var q: nat :| ListAt(w, es, lp, p, q) && MatchKont(w, k, q, lp);
    m := ListSplit(w, es, lp, p, q);
    SilentRefl(w.f, m);
  }

  lemma ListSplit(w: Site, es: seq<Element>, lp: Option<Exits>, p: nat, q: nat) returns (m: nat)
    requires es != [] && ListAt(w, es, lp, p, q)
    ensures ElemAt(w, es[0], lp, p, m) && ListAt(w, es[1..], lp, m, q)
  {
    m :| ElemAt(w, es[0], lp, p, m) && ListAt(w, es[1..], lp, m, q);
  }

  lemma StartMatch(w: Site, prog: seq<Element>, st: State)
    requires Stands(w, prog)
    ensures MatchAt(w, prog, Stop, 0, None) && Match(w, Go(prog, Stop, st), Run(0, st))
  {
    SilentRefl(w.f, |w.f|);
    MatchGo(w, prog, Stop, 0, None, st);
  }

  // ---- loops ----

  /** The body of a loop is followed by the loop. */
  lemma BodyMatch(w: Site, e: Element, k: Kont, p: nat, x: Exits, q: nat, lp: Option<Exits>)
    requires WhileAt(w, e, x, p, q) && MatchKont(w, k, q, lp)
    ensures MatchAt(w, e.body, Loop(e, k), p + 1, Some(x))
  {
    var m: nat :| ListAt(w, e.body, Some(x), p + 1, m) && Silent(w.f, m, p);
    assert LoopAt(w, e, k, p, x);
    assert MatchKont(w, Loop(e, k), m, Some(x));
  }

  /** The innermost loop of a continuation. */
  lemma {:induction false} InnerMatch(w: Site, k: Kont, pc: nat, lp: Option<Exits>) returns (e: Element, p: nat)
    requires MatchKont(w, k, pc, lp)
    ensures lp.None? <==> Inner(k).None?
    ensures lp.Some? ==> Inner(k).value.es == [e] && LoopAt(w, e, Inner(k).value.k, p, lp.value)
    decreases k
  {
    match k
    case Stop => e, p := While(Num(""), []), 0;
    case Then(es, k') =>
      var p': nat :| Silent(w.f, pc, p') && MatchAt(w, es, k', p', lp);
      var q: nat :| ListAt(w, es, lp, p', q) && MatchKont(w, k', q, lp);
      e, p := InnerMatch(w, k', q, lp);
    case Loop(e', k') =>
      e := e';
      p :| Silent(w.f, pc, p) && LoopAt(w, e', k', p, lp.value);
  }

  /** Break and continue. */
  lemma LoopJumpMatch(w: Site, prog: seq<Element>, k: Kont, pc: nat, lp: Option<Exits>, line: nat, r: Result)
    requires MatchKont(w, k, pc, lp) && (r.sig == Brk || r.sig == Cont)
    ensures Match(w, SAfter(prog, [], k, r), AfterLine(w.f, line, Result(LoweredSignal(r.sig, lp), r.st)))
  {
    var e, p := InnerMatch(w, k, pc, lp);
    if lp.Some? {
      var k' := Inner(k).value.k;
      var q: nat, lp': Option<Exits> :| WhileAt(w, e, lp.value, p, q) && MatchKont(w, k', q, lp');
      if r.sig == Brk {
        var at := Find(w.f, lp.value.done).value;
        MatchKontMove(w, k', at, q, lp');
        MatchLeave(w, k', at, lp', r.st);
      } else {
        var lp'' := LoopIsAt(w, e, k', p, lp.value);
        MatchGo(w, [e], k', p, lp'', r.st);
      }
    }
  }

  // ---- jumps to the labels of the user ----

  /** The code of a labelled place carries the label. */
  ghost predicate Landed(w: Site, pt: Point, l: LabelName) {
    pt.es != [] && Find(w.f, l).Some? && MatchSome(w, pt.es, pt.k, Find(w.f, l).value)
  }

  lemma {:induction false} FindMatch(w: Site, es: seq<Element>, l: LabelName, k: Kont, p: nat, lp: Option<Exits>)
    requires MatchAt(w, es, k, p, lp) && SFind(es, l, k).Some?
    ensures Landed(w, SFind(es, l, k).value, l)
    decreases es, 0
  {
    var m := MatchSplit(w, es, k, p, lp);
    if SFindIn(es[0], es[1..], l, k).None? {
      FindMatch(w, es[1..], l, k, m, lp);
    } else {
      match es[0]
      case Plain(line) =>
        assert [es[0]] + es[1..] == es;
        SilentRefl(w.f, p);
      case MultiIf(_, _) => FindMatchIf(w, es[0], l, Then(es[1..], k), p, m, lp);
      case While(_, _) => FindMatchWhile(w, es[0], l, Then(es[1..], k), p, m, lp);
    }
  }

  lemma {:induction false} FindMatchWhile(w: Site, e: Element, l: LabelName, k: Kont, p: nat, q: nat, lp: Option<Exits>)
    requires e.While? && ElemAt(w, e, lp, p, q) && MatchKont(w, k, q, lp) && SFind(e.body, l, Loop(e, k)).Some?
    ensures Landed(w, SFind(e.body, l, Loop(e, k)).value, l)
    decreases e, 1
  {
    var x: Exits :| WhileAt(w, e, x, p, q);
    BodyMatch(w, e, k, p, x, q, lp);
    FindMatch(w, e.body, l, Loop(e, k), p + 1, Some(x));
  }

  lemma {:induction false} FindMatchIf(w: Site, e: Element, l: LabelName, k: Kont, p: nat, q: nat, lp: Option<Exits>)
    requires e.MultiIf? && ElemAt(w, e, lp, p, q) && MatchKont(w, k, q, lp)
    requires SFindBranches(e.branches, l, k).Some? || SFindElse(e.els, l, k).Some?
    ensures Landed(w, if SFindBranches(e.branches, l, k).Some? then SFindBranches(e.branches, l, k).value
                      else SFindElse(e.els, l, k).value, l)
    decreases e, 1
  {
    var r: nat :| BranchesAt(w, e.branches, lp, p, r, q) && ElseAt(w, e.els, lp, r, q);
    if SFindBranches(e.branches, l, k).Some? {
      FindMatchBranches(w, e.branches, l, k, p, r, q, lp);
    } else {
      ElseMatch(w, e.els, k, r, q, lp);
      FindMatch(w, e.els.es, l, k, r, lp);
    }
  }

  lemma {:induction false} FindMatchBranches(w: Site, branches: seq<Branch>, l: LabelName, k: Kont,
                                             p: nat, r: nat, after: nat, lp: Option<Exits>)
    requires BranchesAt(w, branches, lp, p, r, after) && MatchKont(w, k, after, lp)
    requires SFindBranches(branches, l, k).Some?
    ensures Landed(w, SFindBranches(branches, l, k).value, l)
    decreases branches, 1
  {
    var m: nat :| BranchAt(w, branches[0], lp, p, m, after) && BranchesAt(w, branches[1..], lp, m, r, after);
    var body := branches[0].body;
    if SFind(body, l, k).Some? {
      if Simple(body) {
        NothingFound(body, l, k);
      }
      var skip, last: nat :| SkippedAt(w, branches[0], skip, p, m, last, after) && ListAt(w, body, lp, p + 1, last);
      MatchKontMove(w, k, last, after, lp);
      FindMatch(w, body, l, k, p + 1, lp);
    } else {
      FindMatchBranches(w, branches[1..], l, k, m, r, after, lp);
    }
  }

  lemma {:induction false} NothingFound(es: seq<Element>, l: LabelName, k: Kont)
    requires Simple(es)
    ensures SFind(es, l, k).None?
  {
    if es != [] {
      NothingFound(es[1..], l, k);
    }
  }

  /** The else block, present or not, is followed by what follows the if. */
  lemma ElseMatch(w: Site, els: Else, k: Kont, p: nat, after: nat, lp: Option<Exits>)
    requires ElseAt(w, els, lp, p, after) && MatchKont(w, k, after, lp)
    ensures MatchAt(w, ElseElements(els), k, p, lp)
  {
    match els
    case NoElse =>
      MatchKontMove(w, k, p, after, lp);
      assert ListAt(w, [], lp, p, p);
    case ElseBlock(es) =>
      var q: nat :| ListAt(w, es, lp, p, q) && Silent(w.f, q, after);
      MatchKontMove(w, k, q, after, lp);
  }

  /** Every way to leave a line other than reaching its end. */
  lemma OutMatch(w: Site, prog: seq<Element>, k: Kont, pc: nat, lp: Option<Exits>, line: nat, r: Result)
    requires Stands(w, prog) && MatchKont(w, k, pc, lp) && r.sig != Next && UserJump(w, r.sig)
    ensures Match(w, SAfter(prog, [], k, r), AfterLine(w.f, line, Result(LoweredSignal(r.sig, lp), r.st)))
  {
    match r.sig
    case Jump(l) =>
      if SFind(prog, l, Stop).Some? {
        StartMatch(w, prog, r.st);
        FindMatch(w, prog, l, Stop, 0, None);
      }
    case Brk => LoopJumpMatch(w, prog, k, pc, lp, line, r);
    case Cont => LoopJumpMatch(w, prog, k, pc, lp, line, r);
    case _ =>
  }

  // ---- one step of the source ----

  /** After some steps of both programs, they are at the same place again. */
  ghost predicate Meets(env: Env, w: Site, prog: seq<Element>, s: SConf, c: Conf, i: nat, j: nat) {
    i >= 1 && j >= 1 && Match(w, SSteps(env, prog, i, s), Steps(env, w.f, j, c))
  }

  ghost predicate World(env: Env, w: Site, prog: seq<Element>) {
    env.d == w.d && Stands(w, prog)
  }

  lemma OneEach(env: Env, w: Site, prog: seq<Element>, s: SConf, c: Conf)
    requires Match(w, SStep(env, prog, s), Step(env, w.f, c))
    ensures Meets(env, w, prog, s, c, 1, 1)
  {
    OneStep(env, w.f, c);
    OneSourceStep(env, prog, s);
  }

  lemma OneSourceStep(env: Env, prog: seq<Element>, s: SConf)
    ensures SSteps(env, prog, 1, s) == SStep(env, prog, s)
  {
    assert SSteps(env, prog, 1, s) == SSteps(env, prog, 0, SStep(env, prog, s));
  }

  /** The end of the program. */
  lemma EndMeets(env: Env, w: Site, prog: seq<Element>, p: nat, lp: Option<Exits>, st: State) returns (j: nat)
    requires World(env, w, prog) && MatchAt(w, [], Stop, p, lp)
    ensures Meets(env, w, prog, SRun([], Stop, st), Run(p, st), 1, j)
  {
    var k := SilentSteps(env, w.f, p, |w.f|, st);
    StartMatch(w, prog, st);
    OneEach(env, w, prog, SRun([], Stop, st), Run(|w.f|, st));
    StepsAdd(env, w.f, k, 1, Run(p, st));
    j := k + 1;
  }

  /** A line of statements. */
  lemma PlainMeets(env: Env, w: Site, prog: seq<Element>, es: seq<Element>, k: Kont, p: nat, lp: Option<Exits>,
                   st: State)
    requires World(env, w, prog) && MatchAt(w, es, k, p, lp) && es != [] && es[0].Plain?
    ensures Meets(env, w, prog, SRun(es, k, st), Run(p, st), 1, 1)
  {
    var m := MatchSplit(w, es, k, p, lp);
    var stmts := es[0].line.stmts;
    assert PlainRuns(w, stmts, lp, p, st);
    var r := RunStmts(w.d, stmts, st);
    if r.sig == Next {
      MatchLeave(w, Then(es[1..], k), p + 1, lp, r.st);
    } else {
      OutMatch(w, prog, Then(es[1..], k), p + 1, lp, p, r);
    }
    OneEach(env, w, prog, SRun(es, k, st), Run(p, st));
  }

  /** A loop. */
  lemma WhileMeets(env: Env, w: Site, prog: seq<Element>, es: seq<Element>, k: Kont, p: nat, lp: Option<Exits>,
                   st: State)
    requires World(env, w, prog) && MatchAt(w, es, k, p, lp) && es != [] && es[0].While?
    ensures Meets(env, w, prog, SRun(es, k, st), Run(p, st), 1, 1)
  {
    var m := MatchSplit(w, es, k, p, lp);
    var e, k' := es[0], Then(es[1..], k);
    var x: Exits :| WhileAt(w, e, x, p, m);
    assert TestRuns(w, e.cond, x.done, p, st);
    var t := EvalCond(w.d, e.cond, st);
    if t.True? {
      BodyMatch(w, e, k', p, x, m, lp);
      MatchGo(w, e.body, Loop(e, k'), p + 1, Some(x), t.st);
    } else if t.False? {
      var at := Find(w.f, x.done).value;
      MatchKontMove(w, k', at, m, lp);
      MatchLeave(w, k', at, lp, t.st);
    }
    OneEach(env, w, prog, SRun(es, k, st), Run(p, st));
  }

  // ---- ifs ----

  /** Where the code has got to when the condition of branch `b` has turned out to hold. */
  ghost predicate Entered(w: Site, b: Branch, lp: Option<Exits>, after: nat, st: State, c: Conf) {
    || (exists p: nat, exit: Option<LabelName> :: InlineEnd(w, b, lp, exit, p, after, st, c))
    || (exists p: nat, last: nat :: c == Run(p, st) && Silent(w.f, last, after) && ListAt(w, b.body, lp, p, last))
  }

  ghost predicate InlineEnd(w: Site, b: Branch, lp: Option<Exits>, exit: Option<LabelName>, p: nat, after: nat,
                            st: State, c: Conf) {
    && Simple(b.body) && ExitAt(w.f, exit, p + 1, after)
    && c == AfterLine(w.f, p, InlineResult(w, b.body, lp, exit, st))
    && UserJump(w, RunStmts(w.d, BlockStmts(b.body), st).sig)
  }

  /** Where the code of a branch has got to when its condition has been tested. */
  ghost predicate Tested(w: Site, b: Branch, lp: Option<Exits>, next: nat, after: nat, t: Truth, c: Conf) {
    match t
    case Bad(_) => c.Crash?
    case False(st) => c == Run(next, st)
    case True(st) => Entered(w, b, lp, after, st, c)
  }

  /** Testing the condition of a branch. */
  lemma BranchTested(env: Env, w: Site, b: Branch, lp: Option<Exits>, p: nat, q: nat, after: nat,
                     st: State) returns (n: nat)
    requires env.d == w.d && BranchAt(w, b, lp, p, q, after)
    ensures n >= 1 && Tested(w, b, lp, q, after, EvalCond(w.d, b.cond, st), Steps(env, w.f, n, Run(p, st)))
  {
    if exit: Option<LabelName> :| InlinedAt(w, b, lp, exit, p, q, after) {
      n := 1;
      InlinedTested(env, w, b, lp, exit, p, q, after, st);
    } else {
      var skip, last: nat :| SkippedAt(w, b, skip, p, q, last, after) && ListAt(w, b.body, lp, p + 1, last);
      n := TestSteps(env, w, b.cond, skip, p, q, st);
    }
  }

  lemma InlinedTested(env: Env, w: Site, b: Branch, lp: Option<Exits>, exit: Option<LabelName>, p: nat, q: nat,
                      after: nat, st: State)
    requires env.d == w.d && InlinedAt(w, b, lp, exit, p, q, after)
    ensures Tested(w, b, lp, q, after, EvalCond(w.d, b.cond, st), Steps(env, w.f, 1, Run(p, st)))
  {
    var t := EvalCond(w.d, b.cond, st);
    OneStep(env, w.f, Run(p, st));
    assert InlineRuns(w, b, lp, exit, p, st);
    if t.True? {
      assert InlineEnd(w, b, lp, exit, p, after, t.st, Step(env, w.f, Run(p, st)));
    }
  }

  /** From a test execution gets to the next line or to the place behind the label. */
  lemma TestSteps(env: Env, w: Site, cond: Expr, skip: LabelName, p: nat, q: nat, st: State) returns (n: nat)
    requires env.d == w.d && TestAt(w, cond, skip, p) && Reaches(w.f, skip, q)
    ensures var t, c := EvalCond(w.d, cond, st), Steps(env, w.f, n, Run(p, st));
            n >= 1 && (t.Bad? ==> c.Crash?) && (t.True? ==> c == Run(p + 1, t.st)) && (t.False? ==> c == Run(q, t.st))
  {
    OneStep(env, w.f, Run(p, st));
    assert TestRuns(w, cond, skip, p, st);
    n := 1;
    var t := EvalCond(w.d, cond, st);
    if t.False? {
      var k := SilentSteps(env, w.f, Find(w.f, skip).value, q, t.st);
      StepsAdd(env, w.f, 1, k, Run(p, st));
      n := 1 + k;
    }
  }

  /** Where the code of an if has got to when a branch, or none, has been chosen. */
  ghost predicate ChoiceReached(w: Site, branches: seq<Branch>, lp: Option<Exits>, r: nat, after: nat, choice: Choice,
                                c: Conf) {
    match choice
    case BadChoice(_) => c.Crash?
    case NoneChosen(st) => c == Run(r, st)
    case Chosen(i, st) => i < |branches| && Entered(w, branches[i], lp, after, st, c)
  }

  /** Execution tests the conditions in turn until one holds. */
  lemma {:induction false} ChooseSteps(env: Env, w: Site, branches: seq<Branch>, i: nat, lp: Option<Exits>,
                                       p: nat, r: nat, after: nat, st: State) returns (n: nat)
    requires env.d == w.d && i <= |branches| && BranchesAt(w, branches[i..], lp, p, r, after)
    ensures i < |branches| ==> n >= 1
    ensures ChoiceReached(w, branches, lp, r, after, Choose(w.d, branches, i, st), Steps(env, w.f, n, Run(p, st)))
    decreases |branches| - i
  {
    n := 0;
    if i < |branches| {
      var m: nat;
      m, n := OneBranchTested(env, w, branches, i, lp, p, r, after, st);
      var t := EvalCond(w.d, branches[i].cond, st);
      if t.False? {
        var k := ChooseSteps(env, w, branches, i + 1, lp, m, r, after, t.st);
        StepsAdd(env, w.f, n, k, Run(p, st));
        n := n + k;
      }
    }
  }

  lemma OneBranchTested(env: Env, w: Site, branches: seq<Branch>, i: nat, lp: Option<Exits>,
                        p: nat, r: nat, after: nat, st: State) returns (m: nat, n: nat)
    requires env.d == w.d && i < |branches| && BranchesAt(w, branches[i..], lp, p, r, after)
    ensures BranchesAt(w, branches[i + 1..], lp, m, r, after)
    ensures n >= 1 && Tested(w, branches[i], lp, m, after, EvalCond(w.d, branches[i].cond, st),
                             Steps(env, w.f, n, Run(p, st)))
  {
    assert branches[i..][0] == branches[i] && branches[i..][1..] == branches[i + 1..];
    m :| BranchAt(w, branches[i], lp, p, m, after) && BranchesAt(w, branches[i + 1..], lp, m, r, after);
    n := BranchTested(env, w, branches[i], lp, p, m, after, st);
  }

  /** The source runs a block of lines like the statements of the block. */
  lemma {:induction false} SimpleRun(env: Env, prog: seq<Element>, es: seq<Element>, k: Kont,
                                     st: State) returns (i: nat)
    requires Simple(es)
    ensures SSteps(env, prog, i, Go(es, k, st)) == SAfter(prog, [], k, RunStmts(env.d, BlockStmts(es), st))
    decreases |es|
  {
    if es == [] {
      i := 0;
    } else {
      var stmts := es[0].line.stmts;
      RunAppend(env.d, stmts, BlockStmts(es[1..]), st);
      var r := RunStmts(env.d, stmts, st);
      OneSourceStep(env, prog, Go(es, k, st));
      i := 1;
      if r.sig == Next {
        var j := SimpleRun(env, prog, es[1..], k, r.st);
        SStepsAdd(env, prog, 1, j, Go(es, k, st));
        i := 1 + j;
      }
    }
  }

  /** The block of an inlined branch ends like the block of the source. */
  lemma InlinedMatch(w: Site, prog: seq<Element>, b: Branch, lp: Option<Exits>, exit: Option<LabelName>, p: nat,
                     after: nat, k: Kont, st: State)
    requires Stands(w, prog) && MatchKont(w, k, after, lp) && ExitAt(w.f, exit, p + 1, after)
    requires UserJump(w, RunStmts(w.d, BlockStmts(b.body), st).sig)
    ensures Match(w, SAfter(prog, [], k, RunStmts(w.d, BlockStmts(b.body), st)),
                  AfterLine(w.f, p, InlineResult(w, b.body, lp, exit, st)))
  {
    var r := RunStmts(w.d, BlockStmts(b.body), st);
    if r.sig == Next {
      var next := if exit.Some? then Find(w.f, exit.value).value else p + 1;
      MatchKontMove(w, k, next, after, lp);
      MatchLeave(w, k, next, lp, r.st);
    } else {
      OutMatch(w, prog, k, after, lp, p, r);
    }
  }

  /** A branch that is taken. */
  lemma EnteredMeets(env: Env, w: Site, prog: seq<Element>, b: Branch, lp: Option<Exits>, after: nat, k: Kont,
                     st: State, c: Conf)
      returns (i: nat)
    requires World(env, w, prog) && Entered(w, b, lp, after, st, c) && MatchKont(w, k, after, lp)
    ensures Match(w, SSteps(env, prog, i, Go(b.body, k, st)), c)
  {
    i := 0;
    if p: nat, exit: Option<LabelName> :| InlineEnd(w, b, lp, exit, p, after, st, c) {
      i := SimpleRun(env, prog, b.body, k, st);
      InlinedMatch(w, prog, b, lp, exit, p, after, k, st);
    } else {
      var p: nat, last: nat :| c == Run(p, st) && Silent(w.f, last, after) && ListAt(w, b.body, lp, p, last);
      MatchKontMove(w, k, last, after, lp);
      MatchGo(w, b.body, k, p, lp, st);
    }
  }

  /** An if. */
  lemma IfMeets(env: Env, w: Site, prog: seq<Element>, es: seq<Element>, k: Kont, p: nat, lp: Option<Exits>, st: State)
      returns (i: nat, j: nat)
    requires World(env, w, prog) && MatchAt(w, es, k, p, lp) && es != [] && es[0].MultiIf?
    ensures Meets(env, w, prog, SRun(es, k, st), Run(p, st), i, j)
  {
    var m := MatchSplit(w, es, k, p, lp);
    var e, k' := es[0], Then(es[1..], k);
    var r: nat :| BranchesAt(w, e.branches, lp, p, r, m) && ElseAt(w, e.els, lp, r, m);
    assert e.branches[0..] == e.branches;
    j := ChooseSteps(env, w, e.branches, 0, lp, p, r, m, st);
    OneSourceStep(env, prog, SRun(es, k, st));
    i := 1;
    match Choose(w.d, e.branches, 0, st)
    case BadChoice(_) =>
    case NoneChosen(s) =>
      ElseMatch(w, e.els, k', r, m, lp);
      MatchGo(w, ElseElements(e.els), k', r, lp, s);
    case Chosen(b, s) =>
      var n := EnteredMeets(env, w, prog, e.branches[b], lp, m, k', s, Steps(env, w.f, j, Run(p, st)));
      SStepsAdd(env, prog, 1, n, SRun(es, k, st));
      i := 1 + n;
  }

  // ---- whole runs ----

  /** Whatever stands next, the code does the same. */
  lemma PlaceMeets(env: Env, w: Site, prog: seq<Element>, es: seq<Element>, k: Kont, p: nat, lp: Option<Exits>,
                   st: State)
      returns (i: nat, j: nat)
    requires World(env, w, prog) && MatchAt(w, es, k, p, lp) && (es == [] ==> k == Stop)
    ensures Meets(env, w, prog, SRun(es, k, st), Run(p, st), i, j)
  {
    i, j := 1, 1;
    if es == [] {
      j := EndMeets(env, w, prog, p, lp, st);
    } else {
      match es[0]
      case Plain(_) => PlainMeets(env, w, prog, es, k, p, lp, st);
      case While(_, _) => WhileMeets(env, w, prog, es, k, p, lp, st);
      case MultiIf(_, _) => i, j := IfMeets(env, w, prog, es, k, p, lp, st);
    }
  }

  lemma StepMeets(env: Env, w: Site, prog: seq<Element>, s: SConf, c: Conf) returns (i: nat, j: nat)
    requires World(env, w, prog) && Match(w, s, c)
    ensures Meets(env, w, prog, s, c, i, j)
  {
    if s.SRun? {
      var p: nat, lp: Option<Exits> :| Silent(w.f, c.pc, p) && MatchAt(w, s.es, s.k, p, lp);
      var n := SilentSteps(env, w.f, c.pc, p, s.st);
      i, j := PlaceMeets(env, w, prog, s.es, s.k, p, lp, s.st);
      StepsAdd(env, w.f, n, j, c);
      j := n + j;
    } else {
      OneEach(env, w, prog, s, c);
      i, j := 1, 1;
    }
  }

  lemma {:induction false} ManyMeets(env: Env, w: Site, prog: seq<Element>, s: SConf, c: Conf, n: nat)
    returns (i: nat, j: nat)
    requires World(env, w, prog) && Match(w, s, c)
    ensures i >= n && j >= n && Match(w, SSteps(env, prog, i, s), Steps(env, w.f, j, c))
    decreases n
  {
    i, j := 0, 0;
    if n > 0 {
      var a, b := StepMeets(env, w, prog, s, c);
      i, j := ManyMeets(env, w, prog, SSteps(env, prog, a, s), Steps(env, w.f, b, c), n - 1);
      SStepsAdd(env, prog, a, i, s);
      StepsAdd(env, w.f, b, j, c);
      i, j := a + i, b + j;
    }
  }

  /** What both programs have shown after at least `n` steps. */
  lemma BothShow(env: Env, w: Site, prog: seq<Element>, st: State, n: nat) returns (i: nat, j: nat)
    requires World(env, w, prog)
    ensures var o, o' := Source(env, prog, st)(i), Flat(env, w.f, st)(j);
            && Covers(Source(env, prog, st)(n), o) && Covers(Flat(env, w.f, st)(n), o')
            && (o == o' || (o.Crashed? && o'.Crashed?))
  {
    StartMatch(w, prog, st);
    i, j := ManyMeets(env, w, prog, Go(prog, Stop, st), Run(0, st), n);
    SourceMonotone(env, prog, st);
    FlatMonotone(env, w.f, st);
  }

  /** On every run without errors the code makes the same writes as the program with its nested ifs and loops, and it
      fails whenever the program fails. */
  lemma StandingEquivalent(env: Env, w: Site, prog: seq<Element>, st: State)
    requires World(env, w, prog)
    ensures EquivalentUnlessError(Source(env, prog, st), Flat(env, w.f, st))
  {
    var a, b := Source(env, prog, st), Flat(env, w.f, st);
    if n: nat :| a(n).Crashed? {
      var i, j := BothShow(env, w, prog, st, n);
      assert b(j).Crashed?;
    }
    if n: nat :| b(n).Crashed? {
      var i, j := BothShow(env, w, prog, st, n);
      assert a(i).Crashed?;
    }
    if ErrorFree(a) {
      forall n: nat ensures CoveredBy(a(n), b) && CoveredBy(b(n), a) {
        var i, j := BothShow(env, w, prog, st, n);
        assert a(i) == b(j);
      }
    }
  }
}
