/** Moves of labelled code that write nothing: running an empty line, and jumping. */
module Silence {
  import opened Ast
  import opened Semantics
  import opened Machine

  /** From line `p` execution gets to line `q` in `j` steps without doing anything. */
  ghost predicate SilentIn(f: seq<Line>, p: nat, q: nat, j: nat)
    decreases j
  {
    if j == 0 then p == q
    else if p >= |f| then false
    else if f[p].stmts == [] then SilentIn(f, p + 1, q, j - 1)
    else
      && f[p].stmts[0].GotoLabel? && Find(f, f[p].stmts[0].target).Some?
      && SilentIn(f, Find(f, f[p].stmts[0].target).value, q, j - 1)
  }

  ghost predicate Silent(f: seq<Line>, p: nat, q: nat) {
    exists j: nat :: SilentIn(f, p, q, j)
  }

  lemma SilentRefl(f: seq<Line>, p: nat)
    ensures Silent(f, p, p)
  {
    assert SilentIn(f, p, p, 0);
  }

  lemma {:induction false} SilentInTransitive(f: seq<Line>, p: nat, q: nat, r: nat, j: nat, k: nat)
    requires SilentIn(f, p, q, j) && SilentIn(f, q, r, k)
    ensures SilentIn(f, p, r, j + k)
    decreases j
  {
    if j > 0 {
      var p' := if f[p].stmts == [] then p + 1 else Find(f, f[p].stmts[0].target).value;
      SilentInTransitive(f, p', q, r, j - 1, k);
    }
  }

  lemma SilentTransitive(f: seq<Line>, p: nat, q: nat, r: nat)
    requires Silent(f, p, q) && Silent(f, q, r)
    ensures Silent(f, p, r)
  {
    var j: nat :| SilentIn(f, p, q, j);
    var k: nat :| SilentIn(f, q, r, k);
    SilentInTransitive(f, p, q, r, j, k);
  }

  lemma SilentEmpty(f: seq<Line>, p: nat)
    requires p < |f| && f[p].stmts == []
    ensures Silent(f, p, p + 1)
  {
    assert SilentIn(f, p + 1, p + 1, 0);
    assert SilentIn(f, p, p + 1, 1);
  }

  lemma SilentGoto(f: seq<Line>, p: nat, l: LabelName)
    requires p < |f| && f[p].stmts == [GotoLabel(l)] && Find(f, l).Some?
    ensures Silent(f, p, Find(f, l).value)
  {
    var q := Find(f, l).value;
    assert SilentIn(f, q, q, 0);
    assert SilentIn(f, p, q, 1);
  }

  lemma {:induction false} SilentInSteps(env: Env, f: seq<Line>, p: nat, q: nat, j: nat, st: State)
    requires SilentIn(f, p, q, j)
    ensures Steps(env, f, j, Run(p, st)) == Run(q, st)
    decreases j
  {
    if j > 0 {
      if f[p].stmts == [] {
        assert Step(env, f, Run(p, st)) == Run(p + 1, st);
        SilentInSteps(env, f, p + 1, q, j - 1, st);
      } else {
        var l := f[p].stmts[0].target;
        assert RunStmts(env.d, f[p].stmts, st) == Result(Jump(l), st);
        SilentInSteps(env, f, Find(f, l).value, q, j - 1, st);
      }
    }
  }

  lemma SilentSteps(env: Env, f: seq<Line>, p: nat, q: nat, st: State) returns (j: nat)
    requires Silent(f, p, q)
    ensures Steps(env, f, j, Run(p, st)) == Run(q, st)
  {
    j :| SilentIn(f, p, q, j);
    SilentInSteps(env, f, p, q, j, st);
  }

  lemma OneStep(env: Env, f: seq<Line>, c: Conf)
    ensures Steps(env, f, 1, c) == Step(env, f, c)
  {
    assert Steps(env, f, 1, c) == Steps(env, f, 0, Step(env, f, c));
  }

  /** A jump to the label gets to line `q`. */
  ghost predicate Reaches(f: seq<Line>, l: LabelName, q: nat) {
    Find(f, l).Some? && Silent(f, Find(f, l).value, q)
  }
}
