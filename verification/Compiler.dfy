/** The passes of the NOLOL compiler in their order (Convert in pkg/nolol/converter.go), and what the YOLOL code it
    produces does. */
module Compiler {
  import opened Ast
  import opened Semantics
  import opened Behaviour
  import opened Machine
  import opened Nolol
  import opened Merging
  import opened Gotos
  import opened Numbering
  import opened Lowering
  import opened LabelCounting
  import opened Placing
  import opened Labelling

  datatype Outcome =
    | Compiled(code: Code)
    | JumpOutsideLoop
    | LineTooLong
    | DuplicateLabel
    | UnknownLabel
    | ProgramTooLarge(code: Code)

  /** The lines before labels are resolved. */
  function Packed(cfg: Config, prog: seq<Element>): Option<seq<Line>> {
    Merge(cfg.lay, ClearUnused(ResolveChains(LowerProgram(cfg, prog))))
  }

  function Resolve(lines: seq<Line>): Outcome {
    match FindLabels(lines)
    case None => DuplicateLabel
    case Some(q) =>
      if !(Used(q.lines) <= q.labels.Keys) then UnknownLabel
      else if |q.lines| > LAST_LINE then ProgramTooLarge(NumberLines(q.labels, q.lines))
      else Compiled(NumberLines(q.labels, q.lines))
  }

  function Compile(cfg: Config, prog: seq<Element>): Outcome {
    if !Placed(prog, false) then JumpOutsideLoop
    else
      match Packed(cfg, prog)
      case None => LineTooLong
      case Some(lines) => Resolve(Dedup(lines))
  }

  /** Runs the passes one after another on one program, which they change in place. */
  method Convert(cfg: Config, prog: seq<Element>) returns (r: Outcome)
    ensures r == Compile(cfg, prog)
  {
    var converter := new Converter(cfg);
    var ok, lines := converter.ConvertBlock(prog);
    if !ok {
      return JumpOutsideLoop;
    }
    var p := new Program(lines);
    ResolveGotoChains(p);
    RemoveUnusedLabels(p);
    var merged := MergeStatementElements(cfg.lay, p.lines);
    if merged == None {
      return LineTooLong;
    }
    p.lines := merged.value;
    RemoveDuplicateGotos(p);
    var found, jumpLabels := FindJumpLabels(p);
    if !found {
      return DuplicateLabel;
    }
    var resolved, code := ReplaceGotoLabels(jumpLabels, p);
    if !resolved {
      return UnknownLabel;
    }
    r := if |code| > 20 then ProgramTooLarge(code) else Compiled(code);
  }

  // ---- labels behind the last line ----

  /** Fewer than 20 lines are left when the empty ones are dropped, or behind every label that a goto names there is a
      line that is left. */
  ghost predicate EndReachable(lines: seq<Line>) {
    || Surviving(lines, |lines|) < LAST_LINE
    || forall k: nat {:trigger HasLineBehind(lines, k)} ::
         k < |lines| && lines[k].lbl in Used(lines) ==> HasLineBehind(lines, k)
  }

  /** Every label has the number of an existing line, or of the one behind the last. */
  lemma NumbersBounded(lines: seq<Line>, l: string)
    requires FindLabels(lines).Some? && l in FindLabels(lines).value.labels
    ensures var q := FindLabels(lines).value; 1 <= q.labels[l] <= |q.lines| + 1
  {
    var q := FindLabels(lines).value;
    FindLabelsTable(lines);
    assert DeclaredUpTo(lines, |lines|, l);
    var k :| 0 <= k < |lines| && lines[k].lbl == l;
    assert LabelAt(lines, k, q.labels);
    SurvivingMonotone(lines, k, |lines|);
  }

  /** The machine has no line 21. All gotos of an accepted program reach their lines if and only if none of them has to
      go behind the last of 20 lines. */
  lemma RangeIffEndReachable(lines: seq<Line>)
    requires Resolve(lines).Compiled?
    ensures var q := FindLabels(lines).value;
            InRange(q.labels, Used(q.lines)) <==> EndReachable(lines)
  {
    var q := FindLabels(lines).value;
    SurvivorsUsed(lines);
    FindLabelsTable(lines);
    forall l | l in Used(lines) ensures l in q.labels && 1 <= q.labels[l] <= |q.lines| + 1 {
      NumbersBounded(lines, l);
    }
    if EndReachable(lines) && |q.lines| == LAST_LINE {
      forall l | l in Used(lines) ensures q.labels[l] <= LAST_LINE {
        assert DeclaredUpTo(lines, |lines|, l);
        var k :| 0 <= k < |lines| && lines[k].lbl == l;
        assert LabelAt(lines, k, q.labels) && HasLineBehind(lines, k);
        LineBehind(lines, k);
      }
    }
    if InRange(q.labels, Used(lines)) && |q.lines| == LAST_LINE {
      forall k: nat | k < |lines| && lines[k].lbl in Used(lines) ensures HasLineBehind(lines, k) {
        assert LabelAt(lines, k, q.labels);
        LineBehind(lines, k);
      }
    }
  }

  // ---- the whole compiler ----

  /** What the passes behind the lowering do to a program. */
  lemma PackedEquivalent(env: Env, cfg: Config, prog: seq<Element>, st: State)
    requires Packed(cfg, prog).Some?
    ensures Equivalent(Flat(env, LowerProgram(cfg, prog), st), Flat(env, Dedup(Packed(cfg, prog).value), st))
  {
    var a := LowerProgram(cfg, prog);
    var b := ResolveChains(a);
    var c := ClearUnused(b);
    var d := Packed(cfg, prog).value;
    ResolveChainsEquivalent(env, a, st);
    ClearUnusedEquivalent(env, b, st);
    MergeEquivalent(env, cfg.lay, c, st);
    DedupEquivalent(env, d, st);
    EquivalentTransitive(Flat(env, a, st), Flat(env, b, st), Flat(env, c, st));
    EquivalentTransitive(Flat(env, a, st), Flat(env, c, st), Flat(env, d, st));
    EquivalentTransitive(Flat(env, a, st), Flat(env, d, st), Flat(env, Dedup(d), st));
  }

  /** The lines that are numbered have no gotos to line numbers, and no variables that are not in the program. */
  lemma PackedClean(cfg: Config, c: Ban, prog: seq<Element>)
    requires cfg.Standard() && CleanList(c, prog) && Packed(cfg, prog).Some?
    ensures CleanLines(c, Dedup(Packed(cfg, prog).value))
    ensures LabelledProgram(Dedup(Packed(cfg, prog).value))
  {
    var a := LowerProgram(cfg, prog);
    ListClean(cfg, c, prog, Ctr(0, 0), None);
    ResolveClean(c, a);
    var cleared := ClearUnused(ResolveChains(a));
    assert CleanLines(c, cleared);
    MergeClean(c, cfg.lay, cleared);
    DedupClean(c, Packed(cfg, prog).value);
  }

  /** What the compiler is for: if it accepts a program, then the YOLOL code makes the same writes in the same order as
      the NOLOL program on every run without errors, finite or not, and it fails exactly if the program fails. */
  lemma CompilerCorrect(env: Env, cfg: Config, prog: seq<Element>, st: State)
    requires cfg.Standard() && env.d == cfg.d && cfg.d.ShowsExactly() && cfg.d.ReadsNaturals() && !env.resume
    requires NumberFree(prog) && Lowerable(cfg, prog)
    requires Compile(cfg, prog).Compiled? && EndReachable(Dedup(Packed(cfg, prog).value))
    ensures EquivalentUnlessError(Source(env, prog, st), Vm(env, Compile(cfg, prog).code, st))
  {
    var flat, lines, code := LowerProgram(cfg, prog), Dedup(Packed(cfg, prog).value), Compile(cfg, prog).code;
    LoweringEquivalent(env, cfg, prog, st);
    PackedEquivalent(env, cfg, prog, st);
    PackedClean(cfg, Nothing, prog);
    RangeIffEndReachable(lines);
    NumberingEquivalent(env, lines, st);
    EquivalentTransitive(Flat(env, flat, st), Flat(env, lines, st), Vm(env, code, st));
    EquivalentUnlessErrorThen(Source(env, prog, st), Flat(env, flat, st), Vm(env, code, st));
  }

  // ---- going on after errors ----

  /** A run without errors does not depend on what would happen after an error. */
  lemma {:induction false} ResumeSteps(env: Env, p: Code, n: nat, c: Conf)
    requires !env.resume && !VmSteps(env, p, n, c).Crash?
    ensures VmSteps(env.(resume := true), p, n, c) == VmSteps(env, p, n, c)
  {
    if n > 0 {
      if VmStep(env, p, c).Crash? {
        CrashStays(env, p, n - 1, VmStep(env, p, c));
      }
      ResumeSteps(env, p, n - 1, VmStep(env, p, c));
    }
  }

  lemma {:induction false} CrashStays(env: Env, p: Code, n: nat, c: Conf)
    requires c.Crash?
    ensures VmSteps(env, p, n, c) == c
  {
    if n > 0 {
      CrashStays(env, p, n - 1, c);
    }
  }

  /** For a program that never fails, the result also holds for a machine that goes on after errors. */
  lemma CompilerCorrectResuming(env: Env, cfg: Config, prog: seq<Element>, st: State)
    requires cfg.Standard() && env.d == cfg.d && cfg.d.ShowsExactly() && cfg.d.ReadsNaturals() && !env.resume
    requires NumberFree(prog) && Lowerable(cfg, prog)
    requires Compile(cfg, prog).Compiled? && EndReachable(Dedup(Packed(cfg, prog).value))
    requires ErrorFree(Source(env, prog, st))
    ensures Equivalent(Source(env, prog, st), Vm(env.(resume := true), Compile(cfg, prog).code, st))
  {
    var code := Compile(cfg, prog).code;
    var b, b' := Vm(env, code, st), Vm(env.(resume := true), code, st);
    CompilerCorrect(env, cfg, prog, st);
    forall n: nat ensures b(n) == b'(n) {
      assert !b(n).Crashed?;
      ResumeSteps(env, code, n, Run(0, st));
    }
    forall n: nat ensures CoveredBy(b(n), b') && CoveredBy(b'(n), b) {
      assert b(n) == b'(n);
      assert Covers(b(n), b'(n)) && Covers(b'(n), b(n));
    }
    EquivalentTransitive(Source(env, prog, st), b, b');
  }
}
