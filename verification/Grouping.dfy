/** Where lines get to when they are merged, and that a goto behind a goto stands there before and after. */
module Grouping {
  import opened Ast
  import opened Merging
  import opened Gotos

  lemma {:induction false} DedupAppend(a: seq<Stmt>, b: seq<Stmt>, last: bool)
    ensures DedupStmts(a + b, last).last == DedupStmts(b, DedupStmts(a, last).last).last
    decreases |a|
  {
    if a == [] {
      assert a + b == b;
    } else {
      assert (a + b)[0] == a[0] && (a + b)[1..] == a[1..] + b;
      DedupAppend(a[1..], b, a[0].GotoLabel?);
    }
  }

  /** Whether a goto is the last thing seen in the first `i` lines. */
  function GotoLast(p: seq<Line>, i: nat): bool
    requires i <= |p|
  {
    i > 0 && DedupStmts(p[i - 1].stmts, GotoBefore(p, i - 1)).last
  }

  lemma {:induction false} SamePrefixSame(p: seq<Line>, q: seq<Line>, i: nat)
    requires i < |p| && i < |q| && p[..i + 1] == q[..i + 1]
    ensures GotoBefore(p, i) == GotoBefore(q, i)
    decreases i
  {
    assert p[i] == p[..i + 1][i] && q[i] == q[..i + 1][i];
    if i > 0 {
      assert p[..i + 1][..i] == p[..i] && q[..i + 1][..i] == q[..i];
      assert p[i - 1] == p[..i + 1][i - 1] && q[i - 1] == q[..i + 1][i - 1];
      SamePrefixSame(p, q, i - 1);
    }
  }

  lemma ConcatLast(p: seq<Line>, i: nat, g: nat)
    requires i < g <= |p|
    ensures Concat(p[i..g]) == Concat(p[i..g - 1]) + p[g - 1].stmts
    ensures g == i + 1 ==> Concat(p[i..g]) == p[i].stmts
  {
    assert p[i..g] == p[i..g - 1] + [p[g - 1]];
    ConcatSnoc(p[i..g - 1], p[g - 1]);
    if g == i + 1 {
      assert p[i..g] == [p[i]];
      ConcatOne(p[i]);
    }
  }

  /** Without labels in between, the statements of several lines count as those of one. */
  lemma {:induction false} GroupGoto(p: seq<Line>, i: nat, g: nat)
    requires i < g <= |p| && forall k :: i < k < g ==> p[k].lbl == ""
    ensures DedupStmts(Concat(p[i..g]), GotoBefore(p, i)).last == GotoLast(p, g)
    decreases g
  {
    ConcatLast(p, i, g);
    if g > i + 1 {
      GroupGoto(p, i, g - 1);
      DedupAppend(Concat(p[i..g - 1]), p[g - 1].stmts, GotoBefore(p, i));
    }
  }

  /** Line `s` starts the group that becomes line `j`. */
  ghost predicate StartsGroup(lay: Layout, lines: seq<Line>, merged: seq<Line>, s: nat, j: nat) {
    && s < |lines| && j < |merged| && GroupLast(lay, lines, s).Some?
    && merged[j] == Joined(lines[s..GroupLast(lay, lines, s).value + 1])
    && GotoBefore(merged, j) == GotoBefore(lines, s)
  }

  /** The lines that have been merged, and those that are still to come. */
  ghost predicate MergingAt(lay: Layout, lines: seq<Line>, i: nat, done: seq<Line>, merged: seq<Line>) {
    && i <= |lines| && MergeFrom(lay, lines, i, done) == Some(merged) && GotoLast(done, |done|) == GotoLast(lines, i)
  }

  lemma {:induction false} DoneFirst(lay: Layout, lines: seq<Line>, i: nat, done: seq<Line>)
    requires i <= |lines| && MergeFrom(lay, lines, i, done).Some?
    ensures done <= MergeFrom(lay, lines, i, done).value
    decreases |lines| - i
  {
    if i < |lines| {
      var g := GroupLast(lay, lines, i).value + 1;
      DoneFirst(lay, lines, g, done + [Joined(lines[i..g])]);
    }
  }

  lemma OneGroup(lay: Layout, lines: seq<Line>, i: nat, done: seq<Line>, merged: seq<Line>) returns (g: nat)
    requires MergingAt(lay, lines, i, done, merged) && i < |lines|
    ensures GroupLast(lay, lines, i).Some? && g == GroupLast(lay, lines, i).value + 1
    ensures StartsGroup(lay, lines, merged, i, |done|)
    ensures MergingAt(lay, lines, g, done + [Joined(lines[i..g])], merged)
  {
    g := GroupLast(lay, lines, i).value + 1;
    if !lines[i].eol {
      GrownUnlabelled(lay, lines[i].stmts, lines, i);
    }
    DoneFirst(lay, lines, g, done + [Joined(lines[i..g])]);
    GroupFlags(lines, i, g, done, merged);
  }

  lemma GroupFlags(lines: seq<Line>, i: nat, g: nat, done: seq<Line>, merged: seq<Line>)
    requires i < g <= |lines| && GotoLast(done, |done|) == GotoLast(lines, i)
    requires (forall k :: i < k < g ==> lines[k].lbl == "") && done + [Joined(lines[i..g])] <= merged
    ensures GotoBefore(merged, |done|) == GotoBefore(lines, i)
    ensures GotoLast(done + [Joined(lines[i..g])], |done| + 1) == GotoLast(lines, g)
  {
    var done' := done + [Joined(lines[i..g])];
    GroupGoto(lines, i, g);
    assert done'[..|done| + 1] == done' == merged[..|done| + 1];
    SamePrefixSame(done', merged, |done|);
    GotoKept(done, done'[|done|]);
  }

  lemma GotoKept(done: seq<Line>, l: Line)
    ensures GotoBefore(done + [l], |done|) == (l.lbl == "" && GotoLast(done, |done|))
  {
    if |done| > 0 {
      assert (done + [l])[..|done|] == done[..|done|];
      SamePrefixSame(done + [l], done, |done| - 1);
    }
  }

  /** Every merged line comes from a group. */
  lemma {:induction false} GroupOfLine(lay: Layout, lines: seq<Line>, i: nat, done: seq<Line>, merged: seq<Line>,
                                       j: nat)
      returns (s: nat)
    requires MergingAt(lay, lines, i, done, merged) && |done| <= j < |merged|
    ensures StartsGroup(lay, lines, merged, s, j)
    decreases |lines| - i
  {
    var g := OneGroup(lay, lines, i, done, merged);
    if j == |done| {
      s := i;
    } else {
      s := GroupOfLine(lay, lines, g, done + [Joined(lines[i..g])], merged, j);
    }
  }

  /** Every line is in a group. */
  lemma {:induction false} GroupWithLine(lay: Layout, lines: seq<Line>, i: nat, done: seq<Line>, merged: seq<Line>,
                                         k: nat) returns (s: nat, j: nat)
    requires MergingAt(lay, lines, i, done, merged) && i <= k < |lines|
    ensures StartsGroup(lay, lines, merged, s, j) && s <= k <= GroupLast(lay, lines, s).value
    decreases |lines| - i
  {
    var g := OneGroup(lay, lines, i, done, merged);
    if k < g {
      s, j := i, |done|;
    } else {
      s, j := GroupWithLine(lay, lines, g, done + [Joined(lines[i..g])], merged, k);
    }
  }

  /** A merged line has the label and the end mark of the first line of its group, and the statements of all of them in
      their order. */
  lemma MergedLine(lay: Layout, lines: seq<Line>, merged: seq<Line>, s: nat, j: nat, k: nat)
    requires StartsGroup(lay, lines, merged, s, j) && s <= k <= GroupLast(lay, lines, s).value
    ensures merged[j].lbl == lines[s].lbl && merged[j].eol == lines[s].eol && !merged[j].bol
    ensures exists before, behind :: merged[j].stmts == before + lines[k].stmts + behind &&
                                     |before| == Amount(lines[s..k])
    ensures |merged[j].stmts| == Amount(lines[s..GroupLast(lay, lines, s).value + 1])
  {
    var g := GroupLast(lay, lines, s).value + 1;
    assert lines[s..g] == lines[s..k] + [lines[k]] + lines[k + 1..g];
    ConcatAppend(lines[s..k] + [lines[k]], lines[k + 1..g]);
    ConcatSnoc(lines[s..k], lines[k]);
    AmountIs(lines[s..k]);
    AmountIs(lines[s..g]);
    assert merged[j].stmts == Concat(lines[s..k]) + lines[k].stmts + Concat(lines[k + 1..g]);
  }

  /** The number of statements of some lines. */
  function Amount(p: seq<Line>): nat {
    if p == [] then 0 else |p[0].stmts| + Amount(p[1..])
  }

  lemma {:induction false} AmountIs(p: seq<Line>)
    ensures |Concat(p)| == Amount(p)
  {
    if p != [] {
      AmountIs(p[1..]);
    }
  }

  /** A line that may not be extended is the last one of its group. */
  lemma {:induction false} EolEnds(lay: Layout, cur: seq<Stmt>, lines: seq<Line>, i: nat, k: nat)
    requires i < |lines| && Grown(lay, cur, lines, i).Some? && i < k <= Grown(lay, cur, lines, i).value && lines[k].eol
    ensures k == Grown(lay, cur, lines, i).value
    decreases |lines| - i
  {
    if k > i + 1 {
      EolEnds(lay, cur + lines[i + 1].stmts, lines, i + 1, k);
    }
  }

  lemma LastOfGroup(lay: Layout, lines: seq<Line>, s: nat, k: nat)
    requires s < |lines| && GroupLast(lay, lines, s).Some? && s <= k <= GroupLast(lay, lines, s).value
    requires lines[k].eol || k + 1 == |lines|
    ensures k == GroupLast(lay, lines, s).value
  {
    if s < k && lines[k].eol {
      EolEnds(lay, lines[s].stmts, lines, s, k);
    }
  }
}
