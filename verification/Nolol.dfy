/** NOLOL programs with their nested blocks (pkg/nolol/nast/ast.go), and what they mean. */
module Nolol {
  import opened Ast
  import opened Operations
  import opened Semantics
  import opened Behaviour

  datatype Branch = Branch(cond: Expr, body: seq<Element>)

  /** A line of statements, an if with its else-ifs and perhaps an else, or a loop. */
  datatype Element =
    | Plain(line: Line)
    | MultiIf(branches: seq<Branch>, els: Else)
    | While(cond: Expr, body: seq<Element>)

  datatype Else = NoElse | ElseBlock(es: seq<Element>)

  /** What is left to do when a list of elements is finished. */
  datatype Kont = Stop | Then(es: seq<Element>, k: Kont) | Loop(w: Element, k: Kont)

  /** A place in the program: the elements from there on, and what follows them. */
  datatype Point = Point(es: seq<Element>, k: Kont)

  datatype SConf = SRun(es: seq<Element>, k: Kont, st: State) | SHalt(st: State) | SCrash(st: State)

  /** Leaves finished blocks, until there is something to execute or the program is over. */
  function Settle(es: seq<Element>, k: Kont): Point
    decreases k
  {
    if es != [] then Point(es, k)
    else
      match k
      case Stop => Point([], Stop)
      case Then(es', k') => Settle(es', k')
      case Loop(w, k') => Point([w], k')
  }

  function Go(es: seq<Element>, k: Kont, st: State): SConf {
    var p := Settle(es, k);
    SRun(p.es, p.k, st)
  }

  /** The innermost loop one is in, and what follows it. */
  function Inner(k: Kont): Option<Point> {
    match k
    case Stop => None
    case Then(_, k') => Inner(k')
    case Loop(w, k') => Some(Point([w], k'))
  }

  /** The place behind a label; labels may stand in any block. */
  function SFind(es: seq<Element>, l: LabelName, k: Kont): Option<Point>
    decreases es, 0
  {
    if es == [] then None
    else
      match SFindIn(es[0], es[1..], l, k)
      case Some(p) => Some(p)
      case None => SFind(es[1..], l, k)
  }

  function SFindIn(e: Element, rest: seq<Element>, l: LabelName, k: Kont): Option<Point>
    decreases e, 2
  {
    match e
    case Plain(line) => if line.lbl == l then Some(Point([e] + rest, k)) else None
    case MultiIf(branches, els) =>
      (match SFindBranches(branches, l, Then(rest, k))
       case Some(p) => Some(p)
       case None => SFindElse(els, l, Then(rest, k)))
    case While(_, body) => SFind(body, l, Loop(e, Then(rest, k)))
  }

  function SFindBranches(branches: seq<Branch>, l: LabelName, k: Kont): Option<Point>
    decreases branches, 1
  {
    if branches == [] then None
    else
      match SFind(branches[0].body, l, k)
      case Some(p) => Some(p)
      case None => SFindBranches(branches[1..], l, k)
  }

  function SFindElse(els: Else, l: LabelName, k: Kont): Option<Point>
    decreases els, 1
  {
    match els
    case NoElse => None
    case ElseBlock(es) => SFind(es, l, k)
  }

  function ElseElements(els: Else): seq<Element> {
    match els
    case NoElse => []
    case ElseBlock(es) => es
  }

  datatype Choice = Chosen(i: nat, st: State) | NoneChosen(st: State) | BadChoice(st: State)

  /** The first branch at or after `i` whose condition holds. */
  function Choose(d: Decimals, branches: seq<Branch>, i: nat, st: State): (r: Choice)
    requires i <= |branches|
    ensures r.Chosen? ==> i <= r.i < |branches|
    decreases |branches| - i
  {
    if i == |branches| then NoneChosen(st)
    else
      match EvalCond(d, branches[i].cond, st)
      case Bad(s) => BadChoice(s)
      case True(s) => Chosen(i, s)
      case False(s) => Choose(d, branches, i + 1, s)
  }

  /** Where execution continues after the statements of a line. */
  function SAfter(prog: seq<Element>, es: seq<Element>, k: Kont, r: Result): SConf {
    match r.sig
    case Next => Go(es, k, r.st)
    case Jump(l) => (match SFind(prog, l, Stop) case None => SCrash(r.st) case Some(p) => Go(p.es, p.k, r.st))
    case Brk => (match Inner(k) case None => SCrash(r.st) case Some(p) => Go([], p.k, r.st))
    case Cont => (match Inner(k) case None => SCrash(r.st) case Some(p) => Go(p.es, p.k, r.st))
    case _ => SCrash(r.st)
  }

  function SStep(env: Env, prog: seq<Element>, c: SConf): SConf {
    match c
    case SRun(es, k, st) =>
      if es == [] then
        if k != Stop then Go(es, k, st)
        else if env.forever then Go(prog, Stop, st)
        else SHalt(st)
      else
        (match es[0]
         case Plain(line) => SAfter(prog, es[1..], k, RunStmts(env.d, line.stmts, st))
         case MultiIf(branches, els) =>
           (match Choose(env.d, branches, 0, st)
            case BadChoice(s) => SCrash(s)
            case Chosen(i, s) => Go(branches[i].body, Then(es[1..], k), s)
            case NoneChosen(s) => Go(ElseElements(els), Then(es[1..], k), s))
         case While(cond, body) =>
           (match EvalCond(env.d, cond, st)
            case Bad(s) => SCrash(s)
            case True(s) => Go(body, Loop(es[0], Then(es[1..], k)), s)
            case False(s) => Go(es[1..], k, s)))
    case _ => c
  }

  function SSteps(env: Env, prog: seq<Element>, n: nat, c: SConf): SConf {
    if n == 0 then c else SSteps(env, prog, n - 1, SStep(env, prog, c))
  }

  function SObserve(c: SConf): Obs {
    match c
    case SRun(_, _, s) => Going(s)
    case SHalt(s) => Done(s)
    case SCrash(s) => Crashed(s)
  }

  /** The behaviour a program promises. */
  ghost function Source(env: Env, prog: seq<Element>, st: State): Behaviour {
    (n: nat) => SObserve(SSteps(env, prog, n, Go(prog, Stop, st)))
  }

  lemma {:induction false} SStepsAdd(env: Env, prog: seq<Element>, n: nat, m: nat, c: SConf)
    ensures SSteps(env, prog, n + m, c) == SSteps(env, prog, m, SSteps(env, prog, n, c))
  {
    if n > 0 {
      SStepsAdd(env, prog, n - 1, m, SStep(env, prog, c));
    }
  }

  lemma {:induction false} ChooseExtends(d: Decimals, branches: seq<Branch>, i: nat, st: State)
    requires i <= |branches|
    ensures st.trace <= Choose(d, branches, i, st).st.trace
    decreases |branches| - i
  {
    if i < |branches| {
      EvalExtends(d, branches[i].cond, st);
      ChooseExtends(d, branches, i + 1, EvalCond(d, branches[i].cond, st).st);
    }
  }

  lemma SStepCovers(env: Env, prog: seq<Element>, c: SConf)
    ensures Covers(SObserve(c), SObserve(SStep(env, prog, c)))
  {
    if c.SRun? && c.es != [] {
      match c.es[0]
      case Plain(line) => RunStmtsExtends(env.d, line.stmts, c.st);
      case MultiIf(branches, _) => ChooseExtends(env.d, branches, 0, c.st);
      case While(cond, _) => EvalExtends(env.d, cond, c.st);
    }
  }

  lemma {:induction false} SStepsCover(env: Env, prog: seq<Element>, n: nat, c: SConf)
    ensures Covers(SObserve(c), SObserve(SSteps(env, prog, n, c)))
  {
    if n > 0 {
      SStepCovers(env, prog, c);
      SStepsCover(env, prog, n - 1, SStep(env, prog, c));
      CoversTransitive(SObserve(c), SObserve(SStep(env, prog, c)), SObserve(SSteps(env, prog, n, c)));
    }
  }

  lemma SourceMonotone(env: Env, prog: seq<Element>, st: State)
    ensures Monotone(Source(env, prog, st))
  {
    var b := Source(env, prog, st);
    forall n: nat, m: nat | n <= m ensures Covers(b(n), b(m)) {
      SStepsAdd(env, prog, n, m - n, Go(prog, Stop, st));
      SStepsCover(env, prog, m - n, SSteps(env, prog, n, Go(prog, Stop, st)));
    }
  }
}
