/** Greedy merging needs the fewest lines (mergeStatementElements in pkg/nolol/converter.go). */
module Packing {
  import opened Ast
  import opened Merging

  /** What is known of the length of printed statements: leaving out the first ones does not make the rest longer, and
      joining saves at least the space for the separator. */
  ghost predicate Sensible(lay: Layout) {
    && (forall a, b {:trigger lay.len(a + b)} :: lay.len(b) <= lay.len(a + b))
    && (forall a, b {:trigger lay.len(a + b)} :: lay.len(a + b) <= lay.len(a) + lay.len(b))
  }

  /** Line `j` may be appended to a line made of the lines from `i` on: it has no label, neither of them forbids it, and
      both together are not too long. */
  predicate Appendable(lay: Layout, lines: seq<Line>, i: nat, j: nat) {
    && i < j < |lines| && !lines[j - 1].eol && lines[j].lbl == "" && !lines[j].bol
    && lay.len(Concat(lines[i..j])) + lay.len(lines[j].stmts) <= lay.max
  }

  /** The lines from `i` up to but not including `k` may become one line. */
  predicate Allowed(lay: Layout, lines: seq<Line>, i: nat, k: nat) {
    i < k <= |lines| && forall j :: i < j < k ==> Appendable(lay, lines, i, j)
  }

  /** The lines from `i` on can be divided into `m` groups that may each become one line. */
  ghost predicate Divisible(lay: Layout, lines: seq<Line>, i: nat, m: nat)
    requires i <= |lines|
    decreases |lines| - i
  {
    if i == |lines| then m == 0
    else m > 0 && exists k: nat :: Allowed(lay, lines, i, k) && Divisible(lay, lines, k, m - 1)
  }

  /** A group without its first lines may still become one line. */
  lemma AllowedSuffix(lay: Layout, lines: seq<Line>, i: nat, i': nat, k: nat)
    requires Sensible(lay) && Allowed(lay, lines, i, k) && i <= i' < k
    ensures Allowed(lay, lines, i', k)
  {
    forall j | i' < j < k ensures Appendable(lay, lines, i', j) {
      assert Appendable(lay, lines, i, j);
      assert lines[i..j] == lines[i..i'] + lines[i'..j];
      ConcatAppend(lines[i..i'], lines[i'..j]);
      assert lay.len(Concat(lines[i'..j])) <= lay.len(Concat(lines[i..i']) + Concat(lines[i'..j]));
    }
  }

  lemma ConcatExtend(lines: seq<Line>, i: nat, j: nat)
    requires i <= j < |lines|
    ensures Concat(lines[i..j + 1]) == Concat(lines[i..j]) + lines[j].stmts
  {
    assert lines[i..j + 1] == lines[i..j] + [lines[j]];
    ConcatSnoc(lines[i..j], lines[j]);
  }

  lemma AllowedSnoc(lay: Layout, lines: seq<Line>, i: nat, j: nat)
    requires Allowed(lay, lines, i, j) && Appendable(lay, lines, i, j)
    ensures Allowed(lay, lines, i, j + 1)
  {
  }

  /** The greedy choice: as far as it is allowed, and no further. */
  lemma {:induction false} GrownIsMaximal(lay: Layout, lines: seq<Line>, i: nat, j: nat)
    requires i <= j < |lines| && !lines[j].eol && Allowed(lay, lines, i, j + 1)
    requires Grown(lay, Concat(lines[i..j + 1]), lines, j).Some?
    ensures var g := Grown(lay, Concat(lines[i..j + 1]), lines, j).value + 1;
            Allowed(lay, lines, i, g) && (g < |lines| ==> !Appendable(lay, lines, i, g))
    decreases |lines| - j
  {
    var cur := Concat(lines[i..j + 1]);
    if j + 1 < |lines| && Fits(lay, cur, lines[j + 1]) {
      ConcatExtend(lines, i, j + 1);
      AllowedSnoc(lay, lines, i, j + 1);
      if lines[j + 1].eol {
        assert !Appendable(lay, lines, i, j + 2);
      } else {
        GrownIsMaximal(lay, lines, i, j + 1);
      }
    } else {
      assert Grown(lay, cur, lines, j) == Some(j);
    }
  }

  lemma GroupIsMaximal(lay: Layout, lines: seq<Line>, i: nat)
    requires i < |lines| && GroupLast(lay, lines, i).Some?
    ensures var g := GroupLast(lay, lines, i).value + 1;
            Allowed(lay, lines, i, g) && (g < |lines| ==> !Appendable(lay, lines, i, g))
  {
    assert lines[i..i + 1] == [lines[i]];
    ConcatOne(lines[i]);
    if !lines[i].eol {
      GrownIsMaximal(lay, lines, i, i);
    }
  }

  /** Starting later, the greedy grouping needs no more groups than any other one. */
  lemma {:induction false} GreedyIsBest(lay: Layout, lines: seq<Line>, i: nat, i': nat, m: nat, done: seq<Line>)
    requires Sensible(lay) && i' <= i <= |lines| && Divisible(lay, lines, i', m) && MergeFrom(lay, lines, i, done).Some?
    ensures |MergeFrom(lay, lines, i, done).value| <= |done| + m
    decreases |lines| - i, |lines| - i'
  {
    if i < |lines| {
      var k: nat :| Allowed(lay, lines, i', k) && Divisible(lay, lines, k, m - 1);
      if k <= i {
        GreedyIsBest(lay, lines, i, k, m - 1, done);
      } else {
        AllowedSuffix(lay, lines, i', i, k);
        GroupIsMaximal(lay, lines, i);
        var g: nat := GroupLast(lay, lines, i).value + 1;
        assert g < k ==> Appendable(lay, lines, i, g);
        GreedyIsBest(lay, lines, g, k, m - 1, done + [Joined(lines[i..g])]);
      }
    }
  }

  /** The greedy grouping is one of those that are allowed. */
  lemma {:induction false} GreedyIsAllowed(lay: Layout, lines: seq<Line>, i: nat, done: seq<Line>)
    requires i <= |lines| && MergeFrom(lay, lines, i, done).Some?
    ensures |MergeFrom(lay, lines, i, done).value| >= |done|
    ensures Divisible(lay, lines, i, |MergeFrom(lay, lines, i, done).value| - |done|)
    decreases |lines| - i
  {
    if i < |lines| {
      GroupIsMaximal(lay, lines, i);
      var g := GroupLast(lay, lines, i).value + 1;
      GreedyIsAllowed(lay, lines, g, done + [Joined(lines[i..g])]);
    }
  }

  // ---- when merging succeeds, and how long its lines are ----

  /** A line made of several ones is never too long. */
  lemma {:induction false} GrownFits(lay: Layout, cur: seq<Stmt>, lines: seq<Line>, i: nat)
    requires Sensible(lay) && i < |lines| && lay.len(cur) <= lay.max
    ensures Grown(lay, cur, lines, i).Some?
    ensures lay.len(cur + Concat(lines[i + 1..Grown(lay, cur, lines, i).value + 1])) <= lay.max
    decreases |lines| - i
  {
    assert cur + [] == cur && lines[i + 1..i + 1] == [];
    if i + 1 < |lines| && Fits(lay, cur, lines[i + 1]) {
      var next := cur + lines[i + 1].stmts;
      assert lay.len(next) <= lay.len(cur) + lay.len(lines[i + 1].stmts);
      assert lines[i + 1..i + 2] == [lines[i + 1]];
      ConcatOne(lines[i + 1]);
      if !lines[i + 1].eol {
        GrownFits(lay, next, lines, i + 1);
        var g := Grown(lay, next, lines, i + 1).value + 1;
        assert lines[i + 1..g] == [lines[i + 1]] + lines[i + 2..g];
        assert cur + Concat(lines[i + 1..g]) == next + Concat(lines[i + 2..g]);
      }
    }
  }

  /** If every single line fits, merging succeeds. */
  lemma {:induction false} MergeFromSucceeds(lay: Layout, lines: seq<Line>, i: nat, done: seq<Line>)
    requires Sensible(lay) && i <= |lines| && forall j :: 0 <= j < |lines| ==> lay.len(lines[j].stmts) <= lay.max
    ensures MergeFrom(lay, lines, i, done).Some?
    decreases |lines| - i
  {
    if i < |lines| {
      if !lines[i].eol {
        GrownFits(lay, lines[i].stmts, lines, i);
      }
      var g := GroupLast(lay, lines, i).value + 1;
      MergeFromSucceeds(lay, lines, g, done + [Joined(lines[i..g])]);
    }
  }

  /** If every single line fits, merging succeeds; and whenever it succeeds, it yields the fewest lines of all
      groupings that keep the order of the lines and the same constraints. */
  lemma MergeIsMinimal(lay: Layout, lines: seq<Line>, m: nat)
    requires Sensible(lay)
    ensures (forall j :: 0 <= j < |lines| ==> lay.len(lines[j].stmts) <= lay.max) ==> Merge(lay, lines).Some?
    ensures Merge(lay, lines).Some? ==> Divisible(lay, lines, 0, |Merge(lay, lines).value|)
    ensures Merge(lay, lines).Some? && Divisible(lay, lines, 0, m) ==> |Merge(lay, lines).value| <= m
  {
    if forall j :: 0 <= j < |lines| ==> lay.len(lines[j].stmts) <= lay.max {
      MergeFromSucceeds(lay, lines, 0, []);
    }
    if Merge(lay, lines).Some? {
      GreedyIsAllowed(lay, lines, 0, []);
      if Divisible(lay, lines, 0, m) {
        GreedyIsBest(lay, lines, 0, 0, m, []);
      }
    }
  }

  /** The length of the group is looked at, unless it is one line that may not be extended or the last one. */
  predicate Checked(lay: Layout, lines: seq<Line>, i: nat)
    requires i < |lines| && GroupLast(lay, lines, i).Some?
  {
    GroupLast(lay, lines, i).value > i || (!lines[i].eol && i + 1 < |lines|)
  }

  /** A line that was assembled from several ones fits, and so does every single one whose length is looked at. */
  lemma CheckedFits(lay: Layout, lines: seq<Line>, i: nat)
    requires Sensible(lay) && i < |lines| && GroupLast(lay, lines, i).Some? && Checked(lay, lines, i)
    ensures lay.len(Joined(lines[i..GroupLast(lay, lines, i).value + 1]).stmts) <= lay.max
  {
    var g := GroupLast(lay, lines, i).value + 1;
    GrownFits(lay, lines[i].stmts, lines, i);
    assert lines[i..g] == [lines[i]] + lines[i + 1..g];
  }
}
