/** What it means that the code for a structured program stands in a list of labelled lines. Only the behaviour of
    a line counts, not the text of its statements. */
module Standing {
  import opened Ast
  import opened Operations
  import opened Semantics
  import opened Machine
  import opened Nolol
  import opened Silence

  /** The lines, and the labels that belong to the user. */
  datatype Site = Site(d: Decimals, f: seq<Line>, user: iset<string>)

  /** The labels that continue and break jump to. */
  datatype Exits = Exits(again: LabelName, done: LabelName)

  /** Break and continue become jumps. */
  function LoweredSignal(s: Signal, lp: Option<Exits>): Signal {
    match s
    case Brk => if lp.Some? then Jump(lp.value.done) else s
    case Cont => if lp.Some? then Jump(lp.value.again) else s
    case _ => s
  }

  // ---- single lines ----

  ghost predicate UserJump(w: Site, s: Signal) {
    s.Jump? ==> s.target in w.user
  }

  /** The line at `p` does what the statements do. */
  ghost predicate PlainRuns(w: Site, stmts: seq<Stmt>, lp: Option<Exits>, p: nat, st: State)
    requires p < |w.f|
  {
    var r := RunStmts(w.d, stmts, st);
    RunStmts(w.d, w.f[p].stmts, st) == Result(LoweredSignal(r.sig, lp), r.st) && UserJump(w, r.sig)
  }

  ghost predicate PlainAt(w: Site, line: Line, lp: Option<Exits>, p: nat) {
    && p < |w.f|
    && (line.lbl != "" ==> Find(w.f, line.lbl) == Some(p))
    && forall st {:trigger PlainRuns(w, line.stmts, lp, p, st)} :: PlainRuns(w, line.stmts, lp, p, st)
  }

  /** The line at `p` goes on if the condition holds, and jumps to the label if it does not. */
  ghost predicate TestRuns(w: Site, cond: Expr, l: LabelName, p: nat, st: State)
    requires p < |w.f|
  {
    var r := RunStmts(w.d, w.f[p].stmts, st);
    match EvalCond(w.d, cond, st)
    case Bad(_) => r.sig == Fail
    case True(s) => r == Result(Next, s)
    case False(s) => r == Result(Jump(l), s)
  }

  ghost predicate TestAt(w: Site, cond: Expr, l: LabelName, p: nat) {
    p < |w.f| && forall st {:trigger TestRuns(w, cond, l, p, st)} :: TestRuns(w, cond, l, p, st)
  }

  /** The statements of a block of lines. */
  function BlockStmts(es: seq<Element>): seq<Stmt> {
    if es == [] then []
    else (if es[0].Plain? then es[0].line.stmts else []) + BlockStmts(es[1..])
  }

  /** The block consists of lines without labels. */
  ghost predicate Simple(es: seq<Element>) {
    forall i :: 0 <= i < |es| ==> es[i].Plain? && es[i].line.lbl == ""
  }

  /** How a line ends that runs the block and then jumps to `exit`. */
  function InlineResult(w: Site, body: seq<Element>, lp: Option<Exits>, exit: Option<LabelName>, st: State): Result {
    var r := RunStmts(w.d, BlockStmts(body), st);
    if r.sig == Next && exit.Some? then Result(Jump(exit.value), r.st) else Result(LoweredSignal(r.sig, lp), r.st)
  }

  /** The line at `p` runs the block if the condition holds. */
  ghost predicate InlineRuns(w: Site, b: Branch, lp: Option<Exits>, exit: Option<LabelName>, p: nat, st: State)
    requires p < |w.f|
  {
    var r := RunStmts(w.d, w.f[p].stmts, st);
    match EvalCond(w.d, b.cond, st)
    case Bad(_) => r.sig == Fail
    case True(s) => r == InlineResult(w, b.body, lp, exit, s) && UserJump(w, RunStmts(w.d, BlockStmts(b.body), s).sig)
    case False(s) => r == Result(Next, s)
  }

  /** Control gets from the line before `next` to the end of the if. */
  ghost predicate ExitAt(f: seq<Line>, exit: Option<LabelName>, next: nat, after: nat) {
    if exit.Some? then Reaches(f, exit.value, after) else Silent(f, next, after)
  }

  // ---- elements ----

  /** The code for `es` stands from line `p` to line `q`; `lp` are the labels of the loop around it. */
  ghost predicate ListAt(w: Site, es: seq<Element>, lp: Option<Exits>, p: nat, q: nat)
    decreases es, 0
  {
    if es == [] then p == q
    else exists m: nat :: ElemAt(w, es[0], lp, p, m) && ListAt(w, es[1..], lp, m, q)
  }

  ghost predicate ElemAt(w: Site, e: Element, lp: Option<Exits>, p: nat, q: nat)
    decreases e, 2
  {
    match e
    case Plain(line) => q == p + 1 && PlainAt(w, line, lp, p)
    case MultiIf(branches, els) =>
      branches != [] && exists r: nat :: BranchesAt(w, branches, lp, p, r, q) && ElseAt(w, els, lp, r, q)
    case While(_, _) => exists x: Exits :: WhileAt(w, e, x, p, q)
  }

  /** The loop with the given labels: its test, its body, the jump back, and its end. */
  ghost predicate WhileAt(w: Site, e: Element, x: Exits, p: nat, q: nat)
    decreases e, 1
  {
    && e.While? && TestAt(w, e.cond, x.done, p)
    && Find(w.f, x.again) == Some(p) && Reaches(w.f, x.done, q)
    && exists m: nat :: ListAt(w, e.body, Some(x), p + 1, m) && Silent(w.f, m, p)
  }

  /** The branches stand from `p` to `r`, and the whole if ends at `after`. */
  ghost predicate BranchesAt(w: Site, branches: seq<Branch>, lp: Option<Exits>, p: nat, r: nat, after: nat)
    decreases branches, 1
  {
    if branches == [] then p == r
    else exists m: nat :: BranchAt(w, branches[0], lp, p, m, after) && BranchesAt(w, branches[1..], lp, m, r, after)
  }

  ghost predicate BranchAt(w: Site, b: Branch, lp: Option<Exits>, p: nat, q: nat, after: nat)
    decreases b, 1
  {
    (exists exit: Option<LabelName> :: InlinedAt(w, b, lp, exit, p, q, after)) ||
    (exists skip: LabelName, last: nat ::
       SkippedAt(w, b, skip, p, q, last, after) && ListAt(w, b.body, lp, p + 1, last))
  }

  /** The branch is a single line. */
  ghost predicate InlinedAt(w: Site, b: Branch, lp: Option<Exits>, exit: Option<LabelName>, p: nat, q: nat,
                            after: nat) {
    && q == p + 1 && p < |w.f| && Simple(b.body) && ExitAt(w.f, exit, q, after)
    && forall st {:trigger InlineRuns(w, b, lp, exit, p, st)} :: InlineRuns(w, b, lp, exit, p, st)
  }

  /** The branch is skipped by a jump if its condition does not hold, and its block ends at `last`. */
  ghost predicate SkippedAt(w: Site, b: Branch, skip: LabelName, p: nat, q: nat, last: nat, after: nat) {
    TestAt(w, b.cond, skip, p) && Reaches(w.f, skip, q) && Silent(w.f, last, after)
  }

  ghost predicate ElseAt(w: Site, els: Else, lp: Option<Exits>, p: nat, after: nat)
    decreases els, 1
  {
    match els
    case NoElse => Silent(w.f, p, after)
    case ElseBlock(es) => exists q: nat :: ListAt(w, es, lp, p, q) && Silent(w.f, q, after)
  }

  /** The code for the whole program stands from the first line to the last, and the user's labels are those
      of the program. */
  ghost predicate Stands(w: Site, prog: seq<Element>) {
    && ListAt(w, prog, None, 0, |w.f|)
    && forall l: LabelName :: l in w.user && SFind(prog, l, Stop).None? ==> Find(w.f, l).None?
  }

  // ---- putting parts together ----

  lemma ListJoin(w: Site, es: seq<Element>, lp: Option<Exits>, p: nat, m: nat, q: nat)
    requires es != [] && ElemAt(w, es[0], lp, p, m) && ListAt(w, es[1..], lp, m, q)
    ensures ListAt(w, es, lp, p, q)
  {
  }

  lemma LoopJoin(w: Site, e: Element, x: Exits, lp: Option<Exits>, p: nat, m: nat, q: nat)
    requires e.While? && TestAt(w, e.cond, x.done, p) && ListAt(w, e.body, Some(x), p + 1, m) && Silent(w.f, m, p)
    requires Find(w.f, x.again) == Some(p) && Reaches(w.f, x.done, q)
    ensures ElemAt(w, e, lp, p, q)
  {
    assert WhileAt(w, e, x, p, q);
  }

  lemma SkippedJoin(w: Site, b: Branch, lp: Option<Exits>, skip: LabelName, p: nat, q: nat, last: nat, after: nat)
    requires SkippedAt(w, b, skip, p, q, last, after) && ListAt(w, b.body, lp, p + 1, last)
    ensures BranchAt(w, b, lp, p, q, after)
  {
  }

  lemma InlinedJoin(w: Site, b: Branch, lp: Option<Exits>, exit: Option<LabelName>, p: nat, q: nat, after: nat)
    requires InlinedAt(w, b, lp, exit, p, q, after)
    ensures BranchAt(w, b, lp, p, q, after)
  {
  }

  lemma BranchesJoin(w: Site, branches: seq<Branch>, i: nat, lp: Option<Exits>, p: nat, m: nat, r: nat, after: nat)
    requires i < |branches| && BranchAt(w, branches[i], lp, p, m, after)
    requires BranchesAt(w, branches[i + 1..], lp, m, r, after)
    ensures BranchesAt(w, branches[i..], lp, p, r, after)
  {
    assert branches[i..][0] == branches[i] && branches[i..][1..] == branches[i + 1..];
  }

  lemma IfJoin(w: Site, e: Element, lp: Option<Exits>, p: nat, r: nat, after: nat)
    requires e.MultiIf? && e.branches != [] && BranchesAt(w, e.branches[0..], lp, p, r, after) &&
             ElseAt(w, e.els, lp, r, after)
    ensures ElemAt(w, e, lp, p, after)
  {
    assert e.branches[0..] == e.branches;
  }
}
