/** Shortening the variable names of a NOLOL program, as the compiler does while it visits the program
    (convertAssignment and convertDereference in pkg/nolol/converter_definitions.go), and what that does to its runs. */
module NamesInBlocks {
  import opened Ast
  import opened Operations
  import opened Semantics
  import opened Behaviour
  import opened Nolol
  import opened Naming
  import opened Renaming

  // ---- the traversal; unlike in YOLOL programs, the assigned variable comes after the value ----

  function NameStmt(n: Names, s: Stmt): (Names, Stmt)
    decreases s, 1
  {
    match s
    case Assign(x, aop, e) =>
      var (n1, e') := RenameExpr(n, e);
      var (n2, y) := Short(n1, x);
      (n2, Assign(y, aop, e'))
    case If(c, t, e) =>
      var (n1, c') := RenameExpr(n, c);
      var (n2, t') := NameStmts(n1, t);
      var (n3, e') := NameStmts(n2, e);
      (n3, If(c', t', e'))
    case _ => RenameStmt(n, s)
  }

  function NameStmts(n: Names, ss: seq<Stmt>): (Names, seq<Stmt>)
    decreases ss, 0
  {
    if ss == [] then (n, [])
    else
      var (n1, s) := NameStmt(n, ss[0]);
      var (n2, rest) := NameStmts(n1, ss[1..]);
      (n2, [s] + rest)
  }

  function NameList(n: Names, es: seq<Element>): (Names, seq<Element>)
    decreases es, 0
  {
    if es == [] then (n, [])
    else
      var (n1, e) := NameElem(n, es[0]);
      var (n2, rest) := NameList(n1, es[1..]);
      (n2, [e] + rest)
  }

  function NameElem(n: Names, e: Element): (Names, Element)
    decreases e, 2
  {
    match e
    case Plain(line) =>
      var (n1, ss) := NameStmts(n, line.stmts);
      (n1, Element.Plain(line.(stmts := ss)))
    case MultiIf(branches, els) =>
      var (n1, bs) := NameBranches(n, branches);
      var (n2, els') := NameElse(n1, els);
      (n2, MultiIf(bs, els'))
    case While(cond, body) =>
      var (n1, c) := RenameExpr(n, cond);
      var (n2, body') := NameList(n1, body);
      (n2, While(c, body'))
  }

  function NameBranches(n: Names, branches: seq<Branch>): (Names, seq<Branch>)
    decreases branches, 1
  {
    if branches == [] then (n, [])
    else
      var (n1, c) := RenameExpr(n, branches[0].cond);
      var (n2, body) := NameList(n1, branches[0].body);
      var (n3, rest) := NameBranches(n2, branches[1..]);
      (n3, [Branch(c, body)] + rest)
  }

  function NameElse(n: Names, els: Else): (Names, Else)
    decreases els, 1
  {
    match els
    case NoElse => (n, NoElse)
    case ElseBlock(es) =>
      var (n1, es') := NameList(n, es);
      (n1, ElseBlock(es'))
  }

  // ---- the same with a fixed table ----

  function MapList(n: Names, es: seq<Element>): (r: seq<Element>)
    ensures |r| == |es|
    decreases es, 0
  {
    if es == [] then [] else [MapElem(n, es[0])] + MapList(n, es[1..])
  }

  function MapElem(n: Names, e: Element): Element
    decreases e, 2
  {
    match e
    case Plain(line) => Element.Plain(line.(stmts := MapStmts(n, line.stmts)))
    case MultiIf(branches, els) => MultiIf(MapBranches(n, branches), MapElse(n, els))
    case While(cond, body) => While(MapExpr(n, cond), MapList(n, body))
  }

  function MapBranches(n: Names, branches: seq<Branch>): (r: seq<Branch>)
    ensures |r| == |branches|
    decreases branches, 1
  {
    if branches == [] then []
    else [Branch(MapExpr(n, branches[0].cond), MapList(n, branches[0].body))] + MapBranches(n, branches[1..])
  }

  function MapElse(n: Names, els: Else): Else
    decreases els, 1
  {
    match els
    case NoElse => NoElse
    case ElseBlock(es) => ElseBlock(MapList(n, es))
  }

  predicate KnownList(n: Names, es: seq<Element>)
    decreases es, 0
  {
    es == [] || (KnownElem(n, es[0]) && KnownList(n, es[1..]))
  }

  predicate KnownElem(n: Names, e: Element)
    decreases e, 2
  {
    match e
    case Plain(line) => KnownStmts(n, line.stmts)
    case MultiIf(branches, els) => KnownBranches(n, branches) && (els.ElseBlock? ==> KnownList(n, els.es))
    case While(cond, body) => KnownExpr(n, cond) && KnownList(n, body)
  }

  predicate KnownBranches(n: Names, branches: seq<Branch>)
    decreases branches, 1
  {
    branches == [] ||
    (KnownExpr(n, branches[0].cond) && KnownList(n, branches[0].body) && KnownBranches(n, branches[1..]))
  }

  // ---- the traversal agrees with its final table ----

  lemma {:induction false} NameStmtKeeps(a: Names, s: Stmt)
    requires NamesOk(a)
    ensures NamesOk(NameStmt(a, s).0)
    decreases s, 1
  {
    match s
    case Assign(x, _, e) =>
      ExprKeeps(a, e);
      ShortOk(RenameExpr(a, e).0, x);
    case If(c, t, e) =>
      ExprKeeps(a, c);
      var n1 := RenameExpr(a, c).0;
      NameStmtsKeep(n1, t);
      NameStmtsKeep(NameStmts(n1, t).0, e);
    case _ => StmtKeeps(a, s);
  }

  lemma {:induction false} NameStmtsKeep(a: Names, ss: seq<Stmt>)
    requires NamesOk(a)
    ensures NamesOk(NameStmts(a, ss).0)
    decreases ss, 0
  {
    if ss != [] {
      NameStmtKeeps(a, ss[0]);
      NameStmtsKeep(NameStmt(a, ss[0]).0, ss[1..]);
    }
  }

  lemma {:induction false} NameStmtMapped(a: Names, s: Stmt, z: Names)
    requires NamesOk(a) && Extends(NameStmt(a, s).0, z)
    ensures Extends(a, z) && NameStmt(a, s).1 == MapStmt(z, s) && KnownStmt(z, s)
    decreases s, 1
  {
    match s
    case Assign(x, _, e) =>
      ExprKeeps(a, e);
      ShortMapped(RenameExpr(a, e).0, x, z);
      ExprMapped(a, e, z);
    case If(c, t, e) =>
      var n1 := RenameExpr(a, c).0;
      ExprKeeps(a, c);
      NameStmtsKeep(n1, t);
      NameStmtsMapped(NameStmts(n1, t).0, e, z);
      NameStmtsMapped(n1, t, z);
      ExprMapped(a, c, z);
    case _ => StmtMapped(a, s, z);
  }

  lemma {:induction false} NameStmtsMapped(a: Names, ss: seq<Stmt>, z: Names)
    requires NamesOk(a) && Extends(NameStmts(a, ss).0, z)
    ensures Extends(a, z) && NameStmts(a, ss).1 == MapStmts(z, ss) && KnownStmts(z, ss)
    decreases ss, 0
  {
    if ss != [] {
      NameStmtKeeps(a, ss[0]);
      NameStmtsMapped(NameStmt(a, ss[0]).0, ss[1..], z);
      NameStmtMapped(a, ss[0], z);
    }
  }

  lemma {:induction false} NameListKeeps(a: Names, es: seq<Element>)
    requires NamesOk(a)
    ensures NamesOk(NameList(a, es).0)
    decreases es, 0
  {
    if es != [] {
      NameElemKeeps(a, es[0]);
      NameListKeeps(NameElem(a, es[0]).0, es[1..]);
    }
  }

  lemma {:induction false} NameElemKeeps(a: Names, e: Element)
    requires NamesOk(a)
    ensures NamesOk(NameElem(a, e).0)
    decreases e, 2
  {
    match e
    case Plain(line) => NameStmtsKeep(a, line.stmts);
    case MultiIf(branches, els) =>
      NameBranchesKeep(a, branches);
      if els.ElseBlock? {
        NameListKeeps(NameBranches(a, branches).0, els.es);
      }
    case While(cond, body) =>
      ExprKeeps(a, cond);
      NameListKeeps(RenameExpr(a, cond).0, body);
  }

  lemma {:induction false} NameBranchesKeep(a: Names, branches: seq<Branch>)
    requires NamesOk(a)
    ensures NamesOk(NameBranches(a, branches).0)
    decreases branches, 1
  {
    if branches != [] {
      ExprKeeps(a, branches[0].cond);
      var n1 := RenameExpr(a, branches[0].cond).0;
      NameListKeeps(n1, branches[0].body);
      NameBranchesKeep(NameList(n1, branches[0].body).0, branches[1..]);
    }
  }

  /** Every variable gets the name that it has in the final table. */
  lemma {:induction false} NameListMapped(a: Names, es: seq<Element>, z: Names)
    requires NamesOk(a) && Extends(NameList(a, es).0, z)
    ensures Extends(a, z) && NameList(a, es).1 == MapList(z, es) && KnownList(z, es)
    decreases es, 0
  {
    if es != [] {
      NameElemKeeps(a, es[0]);
      NameListMapped(NameElem(a, es[0]).0, es[1..], z);
      NameElemMapped(a, es[0], z);
    }
  }

  lemma {:induction false} NameElemMapped(a: Names, e: Element, z: Names)
    requires NamesOk(a) && Extends(NameElem(a, e).0, z)
    ensures Extends(a, z) && NameElem(a, e).1 == MapElem(z, e) && KnownElem(z, e)
    decreases e, 2
  {
    match e
    case Plain(line) => NameStmtsMapped(a, line.stmts, z);
    case MultiIf(branches, els) =>
      NameBranchesKeep(a, branches);
      assert NameElem(a, e).0 == NameElse(NameBranches(a, branches).0, els).0;
      NameElseMapped(NameBranches(a, branches).0, els, z);
      NameBranchesMapped(a, branches, z);
    case While(cond, body) =>
      ExprKeeps(a, cond);
      NameListMapped(RenameExpr(a, cond).0, body, z);
      ExprMapped(a, cond, z);
  }

  lemma {:induction false} NameElseMapped(a: Names, els: Else, z: Names)
    requires NamesOk(a) && Extends(NameElse(a, els).0, z)
    ensures Extends(a, z) && NameElse(a, els).1 == MapElse(z, els) && (els.ElseBlock? ==> KnownList(z, els.es))
    decreases els, 1
  {
    if els.ElseBlock? {
      NameListMapped(a, els.es, z);
    }
  }

  lemma {:induction false} NameBranchesMapped(a: Names, branches: seq<Branch>, z: Names)
    requires NamesOk(a) && Extends(NameBranches(a, branches).0, z)
    ensures Extends(a, z) && NameBranches(a, branches).1 == MapBranches(z, branches) && KnownBranches(z, branches)
    decreases branches, 1
  {
    if branches != [] {
      var cond, body := branches[0].cond, branches[0].body;
      var n1 := RenameExpr(a, cond).0;
      ExprKeeps(a, cond);
      NameListKeeps(n1, body);
      NameBranchesMapped(NameList(n1, body).0, branches[1..], z);
      NameListMapped(n1, body, z);
      ExprMapped(a, cond, z);
    }
  }

  // ---- places ----

  function MapKont(n: Names, k: Kont): Kont {
    match k
    case Stop => Stop
    case Then(es, k') => Then(MapList(n, es), MapKont(n, k'))
    case Loop(e, k') => Loop(MapElem(n, e), MapKont(n, k'))
  }

  predicate KnownKont(n: Names, k: Kont) {
    match k
    case Stop => true
    case Then(es, k') => KnownList(n, es) && KnownKont(n, k')
    case Loop(e, k') => KnownElem(n, e) && KnownKont(n, k')
  }

  predicate KnownPoint(n: Names, p: Point) {
    KnownList(n, p.es) && KnownKont(n, p.k)
  }

  function MapPoint(n: Names, p: Point): Point {
    Point(MapList(n, p.es), MapKont(n, p.k))
  }

  /** The same place, if there is one. */
  ghost predicate SamePoint(n: Names, p: Option<Point>, p': Option<Point>) {
    match p
    case None => p' == None
    case Some(x) => p' == Some(MapPoint(n, x)) && KnownPoint(n, x)
  }

  lemma MapOne(n: Names, e: Element, rest: seq<Element>)
    ensures MapList(n, [e] + rest) == [MapElem(n, e)] + MapList(n, rest)
    ensures KnownElem(n, e) && KnownList(n, rest) ==> KnownList(n, [e] + rest)
  {
    assert ([e] + rest)[1..] == rest;
  }

  lemma MapSingle(n: Names, e: Element)
    ensures MapList(n, [e]) == [MapElem(n, e)] && (KnownElem(n, e) ==> KnownList(n, [e]))
  {
    MapOne(n, e, []);
    assert [e] + [] == [e] && [MapElem(n, e)] + [] == [MapElem(n, e)];
  }

  lemma {:induction false} SettleMapped(n: Names, es: seq<Element>, k: Kont)
    requires KnownList(n, es) && KnownKont(n, k)
    ensures Settle(MapList(n, es), MapKont(n, k)) == MapPoint(n, Settle(es, k)) && KnownPoint(n, Settle(es, k))
    decreases k
  {
    if es == [] {
      match k
      case Stop =>
      case Then(es', k') => SettleMapped(n, es', k');
      case Loop(e, _) => MapSingle(n, e);
    }
  }

  lemma {:induction false} InnerMapped(n: Names, k: Kont)
    requires KnownKont(n, k)
    ensures SamePoint(n, Inner(k), Inner(MapKont(n, k)))
  {
    match k
    case Stop =>
    case Then(_, k') => InnerMapped(n, k');
    case Loop(e, _) => MapSingle(n, e);
  }

  lemma {:induction false} FindMapped(n: Names, es: seq<Element>, l: LabelName, k: Kont)
    requires KnownList(n, es) && KnownKont(n, k)
    ensures SamePoint(n, SFind(es, l, k), SFind(MapList(n, es), l, MapKont(n, k)))
    decreases es, 0
  {
    if es != [] {
      FindInMapped(n, es[0], es[1..], l, k);
      FindMapped(n, es[1..], l, k);
      assert MapList(n, es)[1..] == MapList(n, es[1..]);
    }
  }

  lemma {:induction false} FindInMapped(n: Names, e: Element, rest: seq<Element>, l: LabelName, k: Kont)
    requires KnownElem(n, e) && KnownList(n, rest) && KnownKont(n, k)
    ensures SamePoint(n, SFindIn(e, rest, l, k), SFindIn(MapElem(n, e), MapList(n, rest), l, MapKont(n, k)))
    decreases e, 2
  {
    match e
    case Plain(_) => MapOne(n, e, rest);
    case MultiIf(branches, els) =>
      var k1 := Then(rest, k);
      assert KnownKont(n, k1) && MapKont(n, k1) == Then(MapList(n, rest), MapKont(n, k));
      FindBranchesMapped(n, branches, l, k1);
      FindElseMapped(n, els, l, k1);
    case While(_, body) =>
      var k1 := Then(rest, k);
      assert KnownKont(n, k1) && MapKont(n, k1) == Then(MapList(n, rest), MapKont(n, k));
      assert KnownKont(n, Loop(e, k1)) && MapKont(n, Loop(e, k1)) == Loop(MapElem(n, e), MapKont(n, k1));
      FindMapped(n, body, l, Loop(e, k1));
  }

  lemma {:induction false} FindElseMapped(n: Names, els: Else, l: LabelName, k: Kont)
    requires (els.ElseBlock? ==> KnownList(n, els.es)) && KnownKont(n, k)
    ensures SamePoint(n, SFindElse(els, l, k), SFindElse(MapElse(n, els), l, MapKont(n, k)))
    decreases els, 1
  {
    if els.ElseBlock? {
      FindMapped(n, els.es, l, k);
    }
  }

  lemma {:induction false} FindBranchesMapped(n: Names, branches: seq<Branch>, l: LabelName, k: Kont)
    requires KnownBranches(n, branches) && KnownKont(n, k)
    ensures SamePoint(n, SFindBranches(branches, l, k), SFindBranches(MapBranches(n, branches), l, MapKont(n, k)))
    decreases branches, 1
  {
    if branches != [] {
      FindMapped(n, branches[0].body, l, k);
      FindBranchesMapped(n, branches[1..], l, k);
      assert MapBranches(n, branches)[1..] == MapBranches(n, branches[1..]);
    }
  }

  // ---- steps ----

  /** The same place, with the same variables up to their names. */
  ghost predicate SameSConf(n: Names, c: SConf, c': SConf) {
    match c
    case SRun(es, k, st) =>
      && KnownList(n, es) && KnownKont(n, k)
      && c'.SRun? && c'.es == MapList(n, es) && c'.k == MapKont(n, k) && SameVars(n, st, c'.st)
    case SHalt(st) => c'.SHalt? && SameVars(n, st, c'.st)
    case SCrash(st) => c'.SCrash? && SameVars(n, st, c'.st)
  }

  lemma GoMapped(n: Names, es: seq<Element>, k: Kont, st: State, st': State)
    requires KnownList(n, es) && KnownKont(n, k) && SameVars(n, st, st')
    ensures SameSConf(n, Go(es, k, st), Go(MapList(n, es), MapKont(n, k), st'))
  {
    SettleMapped(n, es, k);
  }

  lemma CondRenamed(d: Decimals, n: Names, e: Expr, st: State, st': State)
    requires NamesOk(n) && KnownExpr(n, e) && SameVars(n, st, st')
    ensures var t, t' := EvalCond(d, e, st), EvalCond(d, MapExpr(n, e), st');
            t.True? == t'.True? && t.False? == t'.False? && SameVars(n, t.st, t'.st)
  {
    EvalRenamed(d, n, e, st, st');
  }

  lemma {:induction false} BranchAtMapped(n: Names, branches: seq<Branch>, i: nat)
    requires i < |branches| && KnownBranches(n, branches)
    ensures var b := branches[i];
            && MapBranches(n, branches)[i] == Branch(MapExpr(n, b.cond), MapList(n, b.body))
            && KnownExpr(n, b.cond) && KnownList(n, b.body)
  {
    if i > 0 {
      BranchAtMapped(n, branches[1..], i - 1);
      assert MapBranches(n, branches)[i] == MapBranches(n, branches[1..])[i - 1];
    }
  }

  ghost predicate SameChoice(n: Names, r: Choice, r': Choice) {
    && r.Chosen? == r'.Chosen? && r.NoneChosen? == r'.NoneChosen? && (r.Chosen? ==> r'.i == r.i)
    && SameVars(n, r.st, r'.st)
  }

  lemma {:induction false} ChooseMapped(d: Decimals, n: Names, branches: seq<Branch>, i: nat, st: State, st': State)
    requires NamesOk(n) && KnownBranches(n, branches) && i <= |branches| && SameVars(n, st, st')
    ensures SameChoice(n, Choose(d, branches, i, st), Choose(d, MapBranches(n, branches), i, st'))
    decreases |branches| - i
  {
    if i < |branches| {
      BranchAtMapped(n, branches, i);
      CondRenamed(d, n, branches[i].cond, st, st');
      var t, t' := EvalCond(d, branches[i].cond, st), EvalCond(d, MapExpr(n, branches[i].cond), st');
      if t.False? {
        ChooseMapped(d, n, branches, i + 1, t.st, t'.st);
      }
    }
  }

  lemma AfterMapped(n: Names, prog: seq<Element>, es: seq<Element>, k: Kont, r: Result, r': Result)
    requires KnownList(n, prog) && KnownList(n, es) && KnownKont(n, k) && SameEnd(n, r, r')
    ensures SameSConf(n, SAfter(prog, es, k, r), SAfter(MapList(n, prog), MapList(n, es), MapKont(n, k), r'))
  {
    match r.sig
    case Next => GoMapped(n, es, k, r.st, r'.st);
    case Jump(l) =>
      FindMapped(n, prog, l, Stop);
      if SFind(prog, l, Stop).Some? {
        var p := SFind(prog, l, Stop).value;
        GoMapped(n, p.es, p.k, r.st, r'.st);
      }
    case Brk => LoopJumpMapped(n, prog, es, k, r, r');
    case Cont => LoopJumpMapped(n, prog, es, k, r, r');
    case _ =>
  }

  lemma LoopJumpMapped(n: Names, prog: seq<Element>, es: seq<Element>, k: Kont, r: Result, r': Result)
    requires KnownKont(n, k) && SameEnd(n, r, r') && (r.sig.Brk? || r.sig.Cont?)
    ensures SameSConf(n, SAfter(prog, es, k, r), SAfter(MapList(n, prog), MapList(n, es), MapKont(n, k), r'))
  {
    InnerMapped(n, k);
    if Inner(k).Some? {
      GoMapped(n, if r.sig.Brk? then [] else Inner(k).value.es, Inner(k).value.k, r.st, r'.st);
    }
  }

  lemma IfMapped(env: Env, n: Names, prog: seq<Element>, c: SConf, c': SConf)
    requires NamesOk(n) && c.SRun? && c.es != [] && c.es[0].MultiIf? && SameSConf(n, c, c')
    ensures SameSConf(n, SStep(env, prog, c), SStep(env, MapList(n, prog), c'))
  {
    var e, k := c.es[0], Then(c.es[1..], c.k);
    assert c'.es[0] == MapElem(n, e) && c'.es[1..] == MapList(n, c.es[1..]);
    assert KnownElem(n, e) && KnownList(n, c.es[1..]);
    assert KnownKont(n, k) && MapKont(n, k) == Then(MapList(n, c.es[1..]), MapKont(n, c.k));
    ChooseMapped(env.d, n, e.branches, 0, c.st, c'.st);
    var r, r' := Choose(env.d, e.branches, 0, c.st), Choose(env.d, MapBranches(n, e.branches), 0, c'.st);
    match r
    case Chosen(i, s) =>
      BranchAtMapped(n, e.branches, i);
      GoMapped(n, e.branches[i].body, k, s, r'.st);
    case NoneChosen(s) =>
      assert MapElem(n, e).els == MapElse(n, e.els);
      assert ElseElements(MapElse(n, e.els)) == MapList(n, ElseElements(e.els)) && KnownList(n, ElseElements(e.els));
      GoMapped(n, ElseElements(e.els), k, s, r'.st);
    case BadChoice(_) =>
  }

  lemma WhileMapped(env: Env, n: Names, prog: seq<Element>, c: SConf, c': SConf)
    requires NamesOk(n) && c.SRun? && c.es != [] && c.es[0].While? && SameSConf(n, c, c')
    ensures SameSConf(n, SStep(env, prog, c), SStep(env, MapList(n, prog), c'))
  {
    var e := c.es[0];
    assert c'.es[0] == MapElem(n, e) && c'.es[1..] == MapList(n, c.es[1..]);
    assert KnownElem(n, e) && KnownList(n, c.es[1..]);
    var k := Then(c.es[1..], c.k);
    assert KnownKont(n, k) && MapKont(n, k) == Then(MapList(n, c.es[1..]), MapKont(n, c.k));
    assert KnownKont(n, Loop(e, k)) && MapKont(n, Loop(e, k)) == Loop(MapElem(n, e), MapKont(n, k));
    CondRenamed(env.d, n, e.cond, c.st, c'.st);
    var t, t' := EvalCond(env.d, e.cond, c.st), EvalCond(env.d, MapExpr(n, e.cond), c'.st);
    GoMapped(n, e.body, Loop(e, k), t.st, t'.st);
    GoMapped(n, c.es[1..], c.k, t.st, t'.st);
  }

  lemma StepMapped(env: Env, n: Names, prog: seq<Element>, c: SConf, c': SConf)
    requires NamesOk(n) && KnownList(n, prog) && SameSConf(n, c, c')
    ensures SameSConf(n, SStep(env, prog, c), SStep(env, MapList(n, prog), c'))
  {
    if c.SRun? {
      if c.es == [] {
        if c.k != Stop {
          GoMapped(n, [], c.k, c.st, c'.st);
        } else {
          GoMapped(n, prog, Stop, c.st, c'.st);
        }
      } else {
        match c.es[0]
        case Plain(line) =>
          assert c'.es[0] == MapElem(n, c.es[0]) && c'.es[1..] == MapList(n, c.es[1..]);
          assert KnownElem(n, c.es[0]) && KnownList(n, c.es[1..]);
          StmtsRenamed(env.d, n, line.stmts, c.st, c'.st);
          AfterMapped(n, prog, c.es[1..], c.k, RunStmts(env.d, line.stmts, c.st),
                      RunStmts(env.d, MapStmts(n, line.stmts), c'.st));
        case MultiIf(_, _) => IfMapped(env, n, prog, c, c');
        case While(_, _) => WhileMapped(env, n, prog, c, c');
      }
    }
  }

  lemma {:induction false} StepsMapped(env: Env, n: Names, prog: seq<Element>, k: nat, c: SConf, c': SConf)
    requires NamesOk(n) && KnownList(n, prog) && SameSConf(n, c, c')
    ensures SameSConf(n, SSteps(env, prog, k, c), SSteps(env, MapList(n, prog), k, c'))
    decreases k
  {
    if k > 0 {
      StepMapped(env, n, prog, c, c');
      StepsMapped(env, n, prog, k - 1, SStep(env, prog, c), SStep(env, MapList(n, prog), c'));
    }
  }

  /** The same kind of observation, with the same variables up to their names. */
  ghost predicate SameObs(n: Names, o: Obs, o': Obs) {
    && o.Going? == o'.Going? && o.Done? == o'.Done? && o.Crashed? == o'.Crashed? && SameVars(n, o.st, o'.st)
  }

  /** A program with shortened names behaves like the original one, step by step. */
  lemma NamesExact(env: Env, a: Names, prog: seq<Element>, globals: map<string, Value>, k: nat)
    requires NamesOk(a)
    ensures var (n, prog') := NameList(a, prog);
            var st := State(map[], globals, []);
            NamesOk(n) && Extends(a, n) && SameObs(n, Source(env, prog, st)(k), Source(env, prog', st)(k))
  {
    var n := NameList(a, prog).0;
    var st := State(map[], globals, []);
    NameListKeeps(a, prog);
    NameListMapped(a, prog, n);
    StartsSame(n, globals);
    GoMapped(n, prog, Stop, st, st);
    StepsMapped(env, n, prog, k, Go(prog, Stop, st), Go(MapList(n, prog), Stop, st));
  }

  lemma TwoNewNames(a: Names, x: string, y: string)
    requires !IsGlobal(x) && !IsGlobal(y) && Lower(x) != Lower(y)
    requires Lower(x) !in a.mapping && Lower(y) !in a.mapping
    ensures var (n, s) := Short(a, x); s == NameOf(a.next) && Short(n, y).1 == NameOf(a.next + 1)
  {
  }

  /** New names are given in the order in which the variables are visited: the compiler visits the value of an
      assignment before the variable, the optimizer of YOLOL programs the variable before the value. */
  lemma NamesInOrder(a: Names, x: string, aop: AssignOp, y: string)
    requires !IsGlobal(x) && !IsGlobal(y) && Lower(x) != Lower(y)
    requires Lower(x) !in a.mapping && Lower(y) !in a.mapping
    ensures var e := Deref(y, Inc.Plain);
            && NameStmt(a, Assign(x, aop, e)).1 == Assign(NameOf(a.next + 1), aop, Deref(NameOf(a.next), Inc.Plain))
            && RenameStmt(a, Assign(x, aop, e)).1 == Assign(NameOf(a.next), aop, Deref(NameOf(a.next + 1), Inc.Plain))
  {
    var e := Deref(y, Inc.Plain);
    var (n, s) := Short(a, y);
    var (n', s') := Short(a, x);
    TwoNewNames(a, x, y);
    TwoNewNames(a, y, x);
    assert RenameExpr(a, e) == (n, Deref(s, Inc.Plain));
    assert RenameExpr(n', e).1 == Deref(NameOf(a.next + 1), Inc.Plain);
    assert NameStmt(a, Assign(x, aop, e)).1 == Assign(Short(n, x).1, aop, Deref(s, Inc.Plain));
    assert RenameStmt(a, Assign(x, aop, e)).1 == Assign(s', aop, RenameExpr(n', e).1);
  }
}
