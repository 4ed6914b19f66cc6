/** Converting a NOLOL program step by step (Convert in pkg/nolol/converter.go): one object gives out the short names
    from the first variable to the counters of the finished lines. */
module Converting {
  import opened Ast
  import opened Semantics
  import opened Nolol
  import opened Naming
  import opened Renaming
  import opened NamesInBlocks
  import opened Lowering
  import opened LineCounter
  import opened Compiler
  import opened Conversion
  import Optimizing

  method NameStatement(o: VariableNameOptimizer, s: Stmt) returns (r: Stmt)
    modifies o
    ensures (o.Table(), r) == NameStmt(old(o.Table()), s)
    decreases s, 1
  {
    match s
    case Assign(x, aop, e) =>
      var e' := Optimizing.RenameExpression(o, e);
      var y := o.OptimizeVarName(x);
      r := Assign(y, aop, e');
    case If(c, t, e) =>
      var c' := Optimizing.RenameExpression(o, c);
      var t' := NameStatements(o, t);
      var e' := NameStatements(o, e);
      r := If(c', t', e');
    case _ => r := Optimizing.RenameStatement(o, s);
  }

  method NameStatements(o: VariableNameOptimizer, ss: seq<Stmt>) returns (list: seq<Stmt>)
    modifies o
    ensures (o.Table(), list) == NameStmts(old(o.Table()), ss)
    decreases ss, 0
  {
    list := [];
    var i := 0;
    while i < |ss|
      invariant 0 <= i <= |ss|
      invariant NameStmts(old(o.Table()), ss).0 == NameStmts(o.Table(), ss[i..]).0
      invariant NameStmts(old(o.Table()), ss).1 == list + NameStmts(o.Table(), ss[i..]).1
    {
      assert ss[i..][1..] == ss[i + 1..];
      var s := NameStatement(o, ss[i]);
      list := list + [s];
      i := i + 1;
    }
    assert NameStmts(old(o.Table()), ss).1 == list;
  }

  method NameElements(o: VariableNameOptimizer, es: seq<Element>) returns (list: seq<Element>)
    modifies o
    ensures (o.Table(), list) == NameList(old(o.Table()), es)
    decreases es, 0
  {
    list := [];
    if es != [] {
      var e := NameElement(o, es[0]);
      var rest := NameElements(o, es[1..]);
      list := [e] + rest;
    }
  }

  method NameElement(o: VariableNameOptimizer, e: Element) returns (r: Element)
    modifies o
    ensures (o.Table(), r) == NameElem(old(o.Table()), e)
    decreases e, 2
  {
    match e {
      case Plain(line) =>
        var ss := NameStatements(o, line.stmts);
        r := Element.Plain(line.(stmts := ss));
      case MultiIf(branches, els) =>
        var bs := NameAllBranches(o, branches);
        var els' := NameElseBlock(o, els);
        r := MultiIf(bs, els');
      case While(cond, body) =>
        var c := Optimizing.RenameExpression(o, cond);
        var body' := NameElements(o, body);
        r := While(c, body');
    }
  }

  method NameAllBranches(o: VariableNameOptimizer, branches: seq<Branch>) returns (list: seq<Branch>)
    modifies o
    ensures (o.Table(), list) == NameBranches(old(o.Table()), branches)
    decreases branches, 1
  {
    list := [];
    if branches != [] {
      var c := Optimizing.RenameExpression(o, branches[0].cond);
      var body := NameElements(o, branches[0].body);
      var rest := NameAllBranches(o, branches[1..]);
      list := [Branch(c, body)] + rest;
    }
  }

  method NameElseBlock(o: VariableNameOptimizer, els: Else) returns (r: Else)
    modifies o
    ensures (o.Table(), r) == NameElse(old(o.Table()), els)
    decreases els, 1
  {
    r := els;
    if els.ElseBlock? {
      var es := NameElements(o, els.es);
      r := ElseBlock(es);
    }
  }

  /** Reserves the counter's name, visits the program, and lets the lines count themselves in the end. */
  method ConvertProgram(cfg: Config, tracksTime: bool, prog: seq<Element>) returns (r: Outcome)
    ensures r == Converted(cfg, tracksTime, prog)
  {
    var o := new VariableNameOptimizer();
    var counter := o.OptimizeVarName(RESERVED_TIME_VARIABLE);
    var named := NameElements(o, prog);
    assert (o.Table(), named) == Shortened(prog);
    r := Convert(cfg, named);
    if tracksTime && (r.Compiled? || r.ProgramTooLarge?) {
      CounterStaysNamed(prog);
      var code := InsertLineCounter(o, r.code);
      r := if r.Compiled? then Compiled(code) else ProgramTooLarge(code);
    }
  }

  lemma CounterStaysNamed(prog: seq<Element>)
    ensures Lower(RESERVED_TIME_VARIABLE) in Shortened(prog).0.mapping
  {
    StartNamesOk();
    NameListMapped(START_NAMES, prog, Shortened(prog).0);
  }
}
