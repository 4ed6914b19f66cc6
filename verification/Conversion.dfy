/** The compiler with everything it does to names: it shortens the variables, and counts the executed lines if the
    program asks for the time (Convert in pkg/nolol/converter.go). */
module Conversion {
  import opened Ast
  import opened Operations
  import opened Semantics
  import opened Behaviour
  import opened Machine
  import opened Nolol
  import opened Printing
  import opened Naming
  import opened Renaming
  import opened NamesInBlocks
  import opened Gotos
  import opened Numbering
  import opened Lowering
  import opened LabelCounting
  import opened LineCounter
  import opened Labelling
  import opened Compiler
  import opened Outcomes

  /** The table of names before the program is visited: the counter's name comes first. */
  const START_NAMES: Names := Short(NO_NAMES, RESERVED_TIME_VARIABLE).0

  /** The program with short names. */
  function Shortened(prog: seq<Element>): (Names, seq<Element>) {
    NameList(START_NAMES, prog)
  }

  function CounterName(n: Names): string {
    Renamed(n, RESERVED_TIME_VARIABLE)
  }

  function Converted(cfg: Config, tracksTime: bool, prog: seq<Element>): Outcome {
    var (n, prog') := Shortened(prog);
    match Compile(cfg, prog')
    case Compiled(code) => Compiled(WithTime(tracksTime, n, code))
    case ProgramTooLarge(code) => ProgramTooLarge(WithTime(tracksTime, n, code))
    case r => r
  }

  /** The code, whose lines count themselves if the program asks for the time. */
  function WithTime(tracksTime: bool, n: Names, code: Code): Code {
    if tracksTime then Counted(CounterName(n), code) else code
  }

  lemma StartNamesOk()
    ensures NamesOk(START_NAMES) && Lower(RESERVED_TIME_VARIABLE) in START_NAMES.mapping
  {
    assert NamesOk(NO_NAMES);
    ShortOk(NO_NAMES, RESERVED_TIME_VARIABLE);
    assert RESERVED_TIME_VARIABLE[0] == '_';
  }

  // ---- no variable of the program is the counter ----

  /** All variables have names that can stand in a program, apart from the counter where the program may read it. */
  predicate IdExpr(time: bool, e: Expr) {
    match e
    case Deref(x, inc) => IsId(x) || (time && x == RESERVED_TIME_VARIABLE && inc == Inc.Plain)
    case Bin(_, l, r) => IdExpr(time, l) && IdExpr(time, r)
    case Un(_, a) => IdExpr(time, a)
    case _ => true
  }

  predicate IdStmt(time: bool, s: Stmt)
    decreases s, 1
  {
    match s
    case Assign(x, _, e) => IsId(x) && IdExpr(time, e)
    case If(c, t, e) => IdExpr(time, c) && IdStmts(time, t) && IdStmts(time, e)
    case Goto(_) => false
    case Touch(x, _) => IsId(x)
    case _ => true
  }

  /** All variables have names that can stand in a program, and there are no gotos to line numbers. */
  predicate IdStmts(time: bool, ss: seq<Stmt>)
    decreases ss, 0
  {
    ss == [] || (IdStmt(time, ss[0]) && IdStmts(time, ss[1..]))
  }

  predicate IdList(time: bool, es: seq<Element>)
    decreases es, 0
  {
    es == [] || (IdElem(time, es[0]) && IdList(time, es[1..]))
  }

  predicate IdElem(time: bool, e: Element)
    decreases e, 2
  {
    match e
    case Plain(line) => IdStmts(time, line.stmts)
    case MultiIf(branches, els) => IdBranches(time, branches) && (els.ElseBlock? ==> IdList(time, els.es))
    case While(cond, body) => IdExpr(time, cond) && IdList(time, body)
  }

  predicate IdBranches(time: bool, branches: seq<Branch>)
    decreases branches, 1
  {
    branches == [] || (IdExpr(time, branches[0].cond) && IdList(time, branches[0].body) &&
                       IdBranches(time, branches[1..]))
  }

  /** The key of the counter. */
  function CounterKey(n: Names): string {
    Lower(CounterName(n))
  }

  /** A program that may read the counter does not write it; in any other one it does not occur. */
  function CounterBan(n: Names, time: bool): Ban {
    if time then Writes(CounterKey(n)) else Occurrences(CounterKey(n))
  }

  ghost predicate HasCounter(n: Names) {
    NamesOk(n) && Lower(RESERVED_TIME_VARIABLE) in n.mapping
  }

  lemma {:induction false} ExprAbsent(n: Names, time: bool, e: Expr)
    requires HasCounter(n) && IdExpr(time, e) && KnownExpr(n, e)
    ensures AbsentExpr(CounterBan(n, time), MapExpr(n, e))
  {
    match e
    case Deref(x, _) =>
      if IsId(x) {
        NotTheCounter(n, x);
      }
    case Bin(_, l, r) =>
      ExprAbsent(n, time, l);
      ExprAbsent(n, time, r);
    case Un(_, a) => ExprAbsent(n, time, a);
    case _ =>
  }

  lemma {:induction false} StmtAbsent(n: Names, time: bool, s: Stmt)
    requires HasCounter(n) && IdStmt(time, s) && KnownStmt(n, s)
    ensures CleanStmt(CounterBan(n, time), MapStmt(n, s))
    decreases s, 1
  {
    match s
    case Assign(x, _, e) =>
      NotTheCounter(n, x);
      ExprAbsent(n, time, e);
    case If(c, t, e) =>
      ExprAbsent(n, time, c);
      StmtsAbsent(n, time, t);
      StmtsAbsent(n, time, e);
    case Touch(x, _) => NotTheCounter(n, x);
    case _ =>
  }

  lemma {:induction false} StmtsAbsent(n: Names, time: bool, ss: seq<Stmt>)
    requires HasCounter(n) && IdStmts(time, ss) && KnownStmts(n, ss)
    ensures Clean(CounterBan(n, time), MapStmts(n, ss))
    decreases ss, 0
  {
    if ss != [] {
      StmtAbsent(n, time, ss[0]);
      StmtsAbsent(n, time, ss[1..]);
      CleanOne(CounterBan(n, time), MapStmt(n, ss[0]));
      CleanAppend(CounterBan(n, time), [MapStmt(n, ss[0])], MapStmts(n, ss[1..]));
    }
  }

  lemma {:induction false} ListAbsent(n: Names, time: bool, es: seq<Element>)
    requires HasCounter(n) && IdList(time, es) && KnownList(n, es)
    ensures CleanList(CounterBan(n, time), MapList(n, es))
    decreases es, 0
  {
    if es != [] {
      ElemAbsent(n, time, es[0]);
      ListAbsent(n, time, es[1..]);
      assert MapList(n, es)[1..] == MapList(n, es[1..]);
    }
  }

  lemma {:induction false} ElemAbsent(n: Names, time: bool, e: Element)
    requires HasCounter(n) && IdElem(time, e) && KnownElem(n, e)
    ensures CleanElem(CounterBan(n, time), MapElem(n, e))
    decreases e, 2
  {
    match e
    case Plain(line) => StmtsAbsent(n, time, line.stmts);
    case MultiIf(branches, els) =>
      BranchesAbsent(n, time, branches);
      if els.ElseBlock? {
        ListAbsent(n, time, els.es);
      }
    case While(cond, body) =>
      ExprAbsent(n, time, cond);
      ListAbsent(n, time, body);
  }

  lemma {:induction false} BranchesAbsent(n: Names, time: bool, branches: seq<Branch>)
    requires HasCounter(n) && IdBranches(time, branches) && KnownBranches(n, branches)
    ensures CleanBranches(CounterBan(n, time), MapBranches(n, branches))
    decreases branches, 1
  {
    if branches != [] {
      ExprAbsent(n, time, branches[0].cond);
      ListAbsent(n, time, branches[0].body);
      BranchesAbsent(n, time, branches[1..]);
      assert MapBranches(n, branches)[1..] == MapBranches(n, branches[1..]);
    }
  }

  lemma NoLineGotos(c: Ban, es: seq<Element>)
    requires CleanList(c, es)
    ensures NumberFree(es)
    decreases es, 0
  {
    if es != [] {
      NoLineGotosElem(c, es[0]);
      NoLineGotos(c, es[1..]);
    }
  }

  lemma NoLineGotosElem(c: Ban, e: Element)
    requires CleanElem(c, e)
    ensures CleanElem(Nothing, e)
    decreases e, 2
  {
    match e
    case Plain(_) =>
    case MultiIf(branches, els) =>
      NoLineGotosBranches(c, branches);
      if els.ElseBlock? {
        NoLineGotos(c, els.es);
      }
    case While(_, body) => NoLineGotos(c, body);
  }

  lemma NoLineGotosBranches(c: Ban, branches: seq<Branch>)
    requires CleanBranches(c, branches)
    ensures CleanBranches(Nothing, branches)
    decreases branches, 1
  {
    if branches != [] {
      NoLineGotos(c, branches[0].body);
      NoLineGotosBranches(c, branches[1..]);
    }
  }

  /** Numbering gotos introduces no variables. */
  lemma {:induction false} NumberedAbsent(c: Ban, m: JumpLabels, ss: seq<Stmt>)
    requires UsedIn(ss) <= m.Keys && Absent(c, ss)
    ensures Absent(c, NumberStmts(m, ss))
    decreases ss, 0
  {
    if ss != [] {
      NumberedStmtAbsent(c, m, ss[0]);
      NumberedAbsent(c, m, ss[1..]);
      assert NumberStmts(m, ss)[1..] == NumberStmts(m, ss[1..]);
    }
  }

  lemma {:induction false} NumberedStmtAbsent(c: Ban, m: JumpLabels, s: Stmt)
    requires UsedInStmt(s) <= m.Keys && AbsentStmt(c, s)
    ensures AbsentStmt(c, NumberStmt(m, s))
    decreases s, 1
  {
    if s.If? {
      NumberedAbsent(c, m, s.thn);
      NumberedAbsent(c, m, s.els);
    }
  }

  ghost predicate AbsentCode(c: Ban, code: Code) {
    forall i :: 0 <= i < |code| ==> Absent(c, code[i])
  }

  /** The code mentions no variable that is not in the program, and writes none that the program does not write. */
  lemma CodeAbsent(cfg: Config, c: Ban, prog: seq<Element>)
    requires cfg.Standard() && CleanList(c, prog) && Compile(cfg, prog).Compiled?
    ensures AbsentCode(c, Compile(cfg, prog).code)
  {
    PackedClean(cfg, c, prog);
    var lines := Dedup(Packed(cfg, prog).value);
    var q := FindLabels(lines).value;
    FindLabelsTable(lines);
    forall i | 0 <= i < |q.lines| ensures Absent(c, NumberStmts(q.labels, q.lines[i].stmts)) {
      var k := SurvivorAt(lines, |lines|, i);
      assert KeptAt(lines, k, q.lines);
      NumberedAbsent(c, q.labels, q.lines[i].stmts);
    }
  }

  // ---- what is seen of the converted program ----

  /** The writes of the program itself. */
  function Own(tracksTime: bool, c: string, trace: seq<Write>): seq<Write> {
    if tracksTime then Without(c, trace) else trace
  }

  /** The writes `trace` with short names are the first ones of `other`. */
  ghost predicate Begins(n: Names, trace: seq<Write>, other: seq<Write>) {
    && |trace| <= |other|
    && forall i {:trigger SameWrite(n, trace[i], other[i])} :: 0 <= i < |trace| ==> SameWrite(n, trace[i], other[i])
  }

  /** The first writes of `trace`, with short names, are `other`. */
  ghost predicate IsBegun(n: Names, trace: seq<Write>, other: seq<Write>) {
    && |other| <= |trace|
    && forall i {:trigger SameWrite(n, trace[i], other[i])} :: 0 <= i < |other| ==> SameWrite(n, trace[i], other[i])
  }

  /** The same shared variables, the same local ones under their short names, and the same writes; the counter does not
      belong to the program. */
  ghost predicate SameView(n: Names, tracksTime: bool, c: string, st: State, st': State) {
    && st'.globals == st.globals
    && Begins(n, st.trace, Own(tracksTime, c, st'.trace)) && IsBegun(n, st.trace, Own(tracksTime, c, st'.trace))
    && forall key {:trigger SameVar(n, st.locals, st'.locals, key)} ::
         (key in n.mapping ==> n.mapping[key] != c) ==> SameVar(n, st.locals, st'.locals, key)
  }

  /** `o'` shows everything that `o` shows, up to names and the counter. */
  ghost predicate Shows(n: Names, tracksTime: bool, c: string, o: Obs, o': Obs) {
    match o
    case Going(s) => Begins(n, s.trace, Own(tracksTime, c, o'.st.trace))
    case Done(s) => o'.Done? && SameView(n, tracksTime, c, s, o'.st)
    case Crashed(s) => o'.Crashed? && SameView(n, tracksTime, c, s, o'.st)
  }

  /** `o` shows everything that `o'` shows, up to names and the counter. */
  ghost predicate ShownBy(n: Names, tracksTime: bool, c: string, o: Obs, o': Obs) {
    match o'
    case Going(s) => IsBegun(n, o.st.trace, Own(tracksTime, c, s.trace))
    case Done(s) => o.Done? && SameView(n, tracksTime, c, o.st, s)
    case Crashed(s) => o.Crashed? && SameView(n, tracksTime, c, o.st, s)
  }

  ghost predicate ShownIn(n: Names, tracksTime: bool, c: string, o: Obs, b: Behaviour) {
    exists m: nat :: Shows(n, tracksTime, c, o, b(m))
  }

  ghost predicate ShownFrom(n: Names, tracksTime: bool, c: string, a: Behaviour, o': Obs) {
    exists m: nat :: ShownBy(n, tracksTime, c, a(m), o')
  }

  /** The same writes in the same order, the same final variables and the same errors, up to names and the counter. */
  ghost predicate SameUpToNames(n: Names, tracksTime: bool, c: string, a: Behaviour, b: Behaviour) {
    && (forall k: nat {:trigger ShownIn(n, tracksTime, c, a(k), b)} :: ShownIn(n, tracksTime, c, a(k), b))
    && (forall k: nat {:trigger ShownFrom(n, tracksTime, c, a, b(k))} :: ShownFrom(n, tracksTime, c, a, b(k)))
  }

  ghost predicate SameObsBut(tracksTime: bool, c: string, o: Obs, o': Obs) {
    && o.Going? == o'.Going? && o.Done? == o'.Done? && o.Crashed? == o'.Crashed?
    && if tracksTime then SameBut(c, o.st, o'.st) else o'.st == o.st
  }

  lemma ViewThree(n: Names, tracksTime: bool, c: string, a: State, b: State, d: State)
    requires SameVars(n, a, b) && if tracksTime then SameBut(c, b, d) else d == b
    ensures SameView(n, tracksTime, c, a, d)
  {
    assert Own(tracksTime, c, d.trace) == b.trace;
    forall i | 0 <= i < |a.trace| ensures SameWrite(n, a.trace[i], b.trace[i]) {
    }
    forall key | key in n.mapping ==> n.mapping[key] != c ensures SameVar(n, a.locals, d.locals, key) {
      assert SameVar(n, a.locals, b.locals, key);
      if key in n.mapping {
        assert tracksTime ==> SameVarBut(c, b.locals, d.locals, n.mapping[key]);
      }
    }
  }

  lemma ShowsThree(n: Names, tracksTime: bool, c: string, o: Obs, p: Obs, q: Obs, o': Obs)
    requires SameObs(n, o, p) && Covers(p, q) && SameObsBut(tracksTime, c, q, o')
    ensures Shows(n, tracksTime, c, o, o')
  {
    if o.Going? {
      assert Own(tracksTime, c, o'.st.trace) == q.st.trace;
      forall i | 0 <= i < |o.st.trace| ensures SameWrite(n, o.st.trace[i], q.st.trace[i]) {
        assert SameWrite(n, o.st.trace[i], p.st.trace[i]);
      }
    } else {
      ViewThree(n, tracksTime, c, o.st, p.st, o'.st);
    }
  }

  lemma ShownByThree(n: Names, tracksTime: bool, c: string, o: Obs, p: Obs, q: Obs, o': Obs)
    requires SameObs(n, o, p) && Covers(q, p) && SameObsBut(tracksTime, c, q, o')
    ensures ShownBy(n, tracksTime, c, o, o')
  {
    if o'.Going? {
      assert Own(tracksTime, c, o'.st.trace) == q.st.trace;
      forall i | 0 <= i < |q.st.trace| ensures SameWrite(n, o.st.trace[i], q.st.trace[i]) {
        assert SameWrite(n, o.st.trace[i], p.st.trace[i]);
      }
    } else {
      ViewThree(n, tracksTime, c, o.st, p.st, o'.st);
    }
  }

  /** The counter in a behaviour. */
  lemma CountedObs(env: Env, tracksTime: bool, c: string, code: Code, st: State, k: nat)
    requires FreeCode(c, code) && Lower(c) == c && !IsGlobal(c) && st.trace == []
    ensures SameObsBut(tracksTime, c, Vm(env, code, st)(k),
                       Vm(env, if tracksTime then Counted(c, code) else code, st)(k))
  {
    assert SameBut(c, st, st);
    if tracksTime {
      CounterDoesNotDisturb(env, c, code, k, Run(0, st), Run(0, st));
    }
  }

  /** The counter's name is no other variable's. */
  lemma CounterIsNew(time: bool, prog: seq<Element>)
    requires IdList(time, prog)
    ensures var (n, prog') := Shortened(prog); var c := CounterName(n);
            && HasCounter(n) && Lower(c) == c && !IsGlobal(c) && c == CounterKey(n)
            && CleanList(CounterBan(n, time), prog') && NumberFree(prog')
  {
    var (n, prog') := Shortened(prog);
    StartNamesOk();
    NameListKeeps(START_NAMES, prog);
    NameListMapped(START_NAMES, prog, n);
    assert RESERVED_TIME_VARIABLE[0] == '_';
    ShortIsKey(n, RESERVED_TIME_VARIABLE);
    ListAbsent(n, time, prog);
    NoLineGotos(CounterBan(n, time), prog');
  }

  /** What names and the counter change in each observation. */
  lemma ConvertedObs(env: Env, tracksTime: bool, prog: seq<Element>, code: Code, globals: map<string, Value>, k: nat)
    requires IdList(false, prog) && FreeCode(CounterName(Shortened(prog).0), code)
    ensures var (n, prog') := Shortened(prog);
            var st := State(map[], globals, []);
            && SameObs(n, Source(env, prog, st)(k), Source(env, prog', st)(k))
            && SameObsBut(tracksTime, CounterName(n), Vm(env, code, st)(k),
                          Vm(env, WithTime(tracksTime, n, code), st)(k))
  {
    StartNamesOk();
    CounterIsNew(false, prog);
    NamesExact(env, START_NAMES, prog, globals, k);
    CountedObs(env, tracksTime, CounterName(Shortened(prog).0), code, State(map[], globals, []), k);
  }

  /** What the whole converter is for: with short names and, if the program asks for the time, with a counter in every
      line, the YOLOL code still makes the writes of the NOLOL program in their order and ends with its variables, and
      it fails exactly if the program fails. */
  lemma ConverterCorrect(env: Env, cfg: Config, tracksTime: bool, prog: seq<Element>, globals: map<string, Value>)
    requires cfg.Standard() && env.d == cfg.d && cfg.d.ShowsExactly() && cfg.d.ReadsNaturals() && !env.resume
    requires IdList(false, prog) && Lowerable(cfg, Shortened(prog).1)
    requires Converted(cfg, tracksTime, prog).Compiled? && EndReachable(Dedup(Packed(cfg, Shortened(prog).1).value))
    ensures var n, st := Shortened(prog).0, State(map[], globals, []);
            var a, b := Source(env, prog, st), Vm(env, Converted(cfg, tracksTime, prog).code, st);
            && (CanCrash(a) <==> CanCrash(b))
            && (ErrorFree(a) ==> SameUpToNames(n, tracksTime, CounterName(n), a, b))
  {
    var (n, prog') := Shortened(prog);
    var c, st := CounterName(n), State(map[], globals, []);
    var code := Compile(cfg, prog').code;
    CounterIsNew(false, prog);
    CodeAbsent(cfg, Occurrences(c), prog');
    CompilerCorrect(env, cfg, prog', st);
    NamesAndCounter(env, tracksTime, prog, code, globals);
  }

  /** Names and the counter on top of a correct compilation. */
  lemma NamesAndCounter(env: Env, tracksTime: bool, prog: seq<Element>, code: Code, globals: map<string, Value>)
    requires IdList(false, prog) && FreeCode(CounterName(Shortened(prog).0), code)
    requires var st := State(map[], globals, []);
             EquivalentUnlessError(Source(env, Shortened(prog).1, st), Vm(env, code, st))
    ensures var n, st := Shortened(prog).0, State(map[], globals, []);
            var a, b := Source(env, prog, st), Vm(env, WithTime(tracksTime, n, code), st);
            && (CanCrash(a) <==> CanCrash(b))
            && (ErrorFree(a) ==> SameUpToNames(n, tracksTime, CounterName(n), a, b))
  {
    var (n, prog') := Shortened(prog);
    var c, st := CounterName(n), State(map[], globals, []);
    var a, b := Source(env, prog, st), Vm(env, WithTime(tracksTime, n, code), st);
    var a', b' := Source(env, prog', st), Vm(env, code, st);
    forall k: nat ensures SameObs(n, a(k), a'(k)) && SameObsBut(tracksTime, c, b'(k), b(k)) {
      ConvertedObs(env, tracksTime, prog, code, globals, k);
    }
    SameUpToNamesThen(n, tracksTime, c, a, a', b', b);
  }

  /** What time() is for: in every run of the converted program the counter is the number of executed lines, also if the
      program reads it, across gotos, failing lines and new passes. No pass of the compiler adds a write to it. */
  lemma ConvertedTime(env: Env, cfg: Config, prog: seq<Element>, globals: map<string, Value>, k: nat)
    requires cfg.Standard() && IdList(true, prog) && Converted(cfg, true, prog).Compiled?
    ensures var code, start := Converted(cfg, true, prog).code, Run(0, State(map[], globals, []));
            Get(VmSteps(env, code, k, start).st, CounterName(Shortened(prog).0)) ==
            N(Executed(env, code, k, start) as real)
  {
    var (n, prog') := Shortened(prog);
    var c := CounterName(n);
    CounterIsNew(true, prog);
    CodeAbsent(cfg, Writes(c), prog');
    CounterCounts(env, c, Compile(cfg, prog').code, k, Run(0, State(map[], globals, [])), 0);
  }

  lemma SameUpToNamesThen(
      n: Names, tracksTime: bool, c: string, a: Behaviour, a': Behaviour, b': Behaviour, b: Behaviour)
    requires forall k: nat :: SameObs(n, a(k), a'(k))
    requires forall k: nat :: SameObsBut(tracksTime, c, b'(k), b(k))
    requires EquivalentUnlessError(a', b')
    ensures CanCrash(a) <==> CanCrash(b)
    ensures ErrorFree(a) ==> SameUpToNames(n, tracksTime, c, a, b)
  {
    CrashesAlike(n, a, a');
    assert CanCrash(b') <==> CanCrash(b) by {
      if CanCrash(b') {
        var k: nat :| b'(k).Crashed?;
        assert SameObsBut(tracksTime, c, b'(k), b(k));
      }
      if CanCrash(b) {
        var k: nat :| b(k).Crashed?;
        assert SameObsBut(tracksTime, c, b'(k), b(k));
      }
    }
    if ErrorFree(a) {
      forall k: nat ensures !a'(k).Crashed? {
        assert SameObs(n, a(k), a'(k));
      }
      forall k: nat ensures ShownIn(n, tracksTime, c, a(k), b) {
        assert CoveredBy(a'(k), b');
        var m: nat :| Covers(a'(k), b'(m));
        ShowsThree(n, tracksTime, c, a(k), a'(k), b'(m), b(m));
      }
      forall k: nat ensures ShownFrom(n, tracksTime, c, a, b(k)) {
        assert CoveredBy(b'(k), a');
        var m: nat :| Covers(b'(k), a'(m));
        ShownByThree(n, tracksTime, c, a(m), a'(m), b'(k), b(k));
      }
    }
  }

  lemma CrashesAlike(n: Names, a: Behaviour, a': Behaviour)
    requires forall k: nat :: SameObs(n, a(k), a'(k))
    ensures CanCrash(a) <==> CanCrash(a')
  {
    if CanCrash(a) {
      var k: nat :| a(k).Crashed?;
      assert SameObs(n, a(k), a'(k));
    }
    if CanCrash(a') {
      var k: nat :| a'(k).Crashed?;
      assert SameObs(n, a(k), a'(k));
    }
  }
}
