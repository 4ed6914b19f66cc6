/** Packing statement lines into as few lines as possible (pkg/nolol/converter.go). */
module Merging {
  import opened Ast
  import opened Semantics
  import opened Behaviour
  import opened Machine

  /** How long a line of statements is when it is printed, and how long it may be. */
  datatype Layout = Layout(len: seq<Stmt> -> nat, max: nat)

  /** `next` may be appended to a line that holds `cur`. */
  predicate Fits(lay: Layout, cur: seq<Stmt>, next: Line) {
    next.lbl == "" && lay.len(cur) + lay.len(next.stmts) <= lay.max && !next.bol
  }

  /** The last line that is appended to a line that holds `cur`, if `i` is the last one so far;
      None if the line is found to be too long. A last line is not checked. */
  function Grown(lay: Layout, cur: seq<Stmt>, lines: seq<Line>, i: nat): (r: Option<nat>)
    requires i < |lines|
    ensures r.Some? ==> i <= r.value < |lines|
    decreases |lines| - i
  {
    if i + 1 == |lines| then Some(i)
    else if lay.len(cur) > lay.max then None
    else if !Fits(lay, cur, lines[i + 1]) then Some(i)
    else if lines[i + 1].eol then Some(i + 1)
    else Grown(lay, cur + lines[i + 1].stmts, lines, i + 1)
  }

  /** The last line of the group that starts at `i`. */
  function GroupLast(lay: Layout, lines: seq<Line>, i: nat): (r: Option<nat>)
    requires i < |lines|
    ensures r.Some? ==> i <= r.value < |lines|
  {
    if lines[i].eol then Some(i) else Grown(lay, lines[i].stmts, lines, i)
  }

  function Concat(lines: seq<Line>): seq<Stmt> {
    if lines == [] then [] else lines[0].stmts + Concat(lines[1..])
  }

  /** The line a group becomes: the label and the end mark are those of its first line. */
  function Joined(group: seq<Line>): Line
    requires group != []
  {
    Line(group[0].lbl, false, group[0].eol, Concat(group))
  }

  /** The lines built so far, followed by those that the lines from `i` on become. */
  function MergeFrom(lay: Layout, lines: seq<Line>, i: nat, done: seq<Line>): Option<seq<Line>>
    requires i <= |lines|
    decreases |lines| - i
  {
    if i == |lines| then Some(done)
    else
      match GroupLast(lay, lines, i)
      case None => None
      case Some(k) => MergeFrom(lay, lines, k + 1, done + [Joined(lines[i..k + 1])])
  }

  function Merge(lay: Layout, lines: seq<Line>): Option<seq<Line>> {
    MergeFrom(lay, lines, 0, [])
  }

  lemma {:induction false} ConcatAppend(a: seq<Line>, b: seq<Line>)
    ensures Concat(a + b) == Concat(a) + Concat(b)
  {
    if a == [] {
      assert a + b == b;
    } else {
      assert (a + b)[0] == a[0] && (a + b)[1..] == a[1..] + b;
      ConcatAppend(a[1..], b);
    }
  }

  lemma ConcatSnoc(a: seq<Line>, l: Line)
    ensures Concat(a + [l]) == Concat(a) + l.stmts
  {
    ConcatAppend(a, [l]);
    assert Concat([l]) == l.stmts;
  }

  lemma ConcatOne(l: Line)
    ensures Concat([l]) == l.stmts
  {
  }

  /** Builds one line after another; None reports a line that is too long. */
  method MergeStatementElements(lay: Layout, lines: seq<Line>) returns (r: Option<seq<Line>>)
    ensures r == Merge(lay, lines)
  {
    var newElements: seq<Line> := [];
    var i := 0;
    while i < |lines|
      invariant 0 <= i <= |lines|
      invariant Merge(lay, lines) == MergeFrom(lay, lines, i, newElements)
    {
      ghost var start := i;
      var current := Line(lines[i].lbl, false, lines[i].eol, lines[i].stmts);
      ConcatOne(lines[i]);
      assert lines[i..i + 1] == [lines[i]];
      if !current.eol {
        while i + 1 < |lines|
          invariant start <= i < |lines|
          invariant current == Joined(lines[start..i + 1]) && !current.eol
          invariant GroupLast(lay, lines, start) == Grown(lay, current.stmts, lines, i)
        {
          var currlen := lay.len(current.stmts);
          if currlen > lay.max {
            return None;
          }
          var nextline := lines[i + 1];
          var nextlen := lay.len(nextline.stmts);
          if nextline.lbl == "" && currlen + nextlen <= lay.max && !nextline.bol {
            JoinedSnoc(lines, start, i + 1);
            current := current.(stmts := current.stmts + nextline.stmts);
            i := i + 1;
            if nextline.eol {
              break;
            }
          } else {
            break;
          }
        }
      }
      assert GroupLast(lay, lines, start) == Some(i);
      newElements := newElements + [current];
      i := i + 1;
    }
    r := Some(newElements);
  }

  lemma JoinedSnoc(lines: seq<Line>, i: nat, j: nat)
    requires i < j < |lines|
    ensures Joined(lines[i..j + 1]) == Joined(lines[i..j]).(stmts := Joined(lines[i..j]).stmts + lines[j].stmts)
  {
    assert lines[i..j + 1] == lines[i..j] + [lines[j]];
    ConcatSnoc(lines[i..j], lines[j]);
  }

  // ---- merging preserves the meaning ----

  /** The position in the unmerged program, given that line `i` was merged from two. */
  function Lift(i: nat, c: Conf): Conf {
    match c
    case Run(pc, st) => Run(if pc <= i then pc else pc + 1, st)
    case _ => c
  }

  lemma {:induction false} FindFromPair(p: seq<Line>, q: seq<Line>, i: nat, l: LabelName, k: nat)
    requires SplitAt(p, q, i) && k <= |q|
    ensures FindFrom(p, l, if k <= i then k else k + 1) ==
            match FindFrom(q, l, k)
            case None => None
            case Some(r) => Some(if r <= i then r else r + 1)
    decreases |q| - k
  {
    if k < |q| {
      FindFromPair(p, q, i, l, k + 1);
    }
  }

  /** Line `i` of `q` consists of the lines `i` and `i + 1` of `p`, the second of which has no label. */
  ghost predicate SplitAt(p: seq<Line>, q: seq<Line>, i: nat) {
    && |p| == |q| + 1 && i < |q|
    && p[i + 1].lbl == "" && q[i].lbl == p[i].lbl && q[i].stmts == p[i].stmts + p[i + 1].stmts
    && (forall k :: 0 <= k < i ==> SameCode(p[k], q[k]))
    && (forall k :: i < k < |q| ==> SameCode(p[k + 1], q[k]))
  }

  predicate SameCode(a: Line, b: Line) {
    a.lbl == b.lbl && a.stmts == b.stmts
  }

  lemma SplitStep(env: Env, p: seq<Line>, q: seq<Line>, i: nat, c: Conf) returns (j: nat)
    requires SplitAt(p, q, i)
    ensures j >= 1 && Steps(env, p, j, Lift(i, c)) == Lift(i, Step(env, q, c))
  {
    j := 1;
    var c1 := Step(env, p, Lift(i, c));
    assert Steps(env, p, 1, Lift(i, c)) == Steps(env, p, 0, c1);
    if c.Run? && c.pc < |q| {
      var r := RunStmts(env.d, q[c.pc].stmts, c.st);
      if r.sig.Jump? {
        FindFromPair(p, q, i, r.sig.target, 0);
      }
      if c.pc < i {
        assert SameCode(p[c.pc], q[c.pc]);
      } else if c.pc == i {
        RunAppend(env.d, p[i].stmts, p[i + 1].stmts, c.st);
        if RunStmts(env.d, p[i].stmts, c.st).sig == Next {
          j := 2;
          assert Steps(env, p, 2, Lift(i, c)) == Steps(env, p, 0, Step(env, p, c1));
        }
      } else {
        assert SameCode(p[c.pc + 1], q[c.pc]);
      }
    }
  }

  lemma SplitFollows(env: Env, p: seq<Line>, q: seq<Line>, i: nat, rel: (Conf, Conf) -> bool, c: Conf, c': Conf)
    requires SplitAt(p, q, i) && c == Lift(i, c')
    requires forall x, x' :: x == Lift(i, x') ==> rel(x, x')
    ensures FollowsFrom(env, p, rel, c, Step(env, q, c'))
  {
    var j := SplitStep(env, p, q, i, c');
    assert rel(Steps(env, p, j, c), Step(env, q, c'));
  }

  lemma SplitEquivalent(env: Env, p: seq<Line>, q: seq<Line>, i: nat, st: State)
    requires SplitAt(p, q, i)
    ensures Equivalent(Flat(env, p, st), Flat(env, q, st))
  {
    var rel := (c: Conf, c': Conf) => c == Lift(i, c');
    forall c, c' | rel(c, c')
      ensures Observe(c) == Observe(c') && FollowsFrom(env, p, rel, c, Step(env, q, c'))
    {
      SplitFollows(env, p, q, i, rel, c, c');
    }
    assert Lift(i, Run(0, st)) == Run(0, st);
    FollowsEquivalent(env, p, q, rel, st);
  }

  lemma {:induction false} SameCodeSteps(env: Env, p: seq<Line>, q: seq<Line>, n: nat, c: Conf)
    requires |p| == |q| && forall k :: 0 <= k < |p| ==> SameCode(p[k], q[k])
    ensures Steps(env, q, n, c) == Steps(env, p, n, c)
  {
    if n > 0 {
      forall l: LabelName ensures Find(q, l) == Find(p, l) {
        SameCodeFind(p, q, l, 0);
      }
      SameCodeSteps(env, p, q, n - 1, Step(env, p, c));
    }
  }

  lemma {:induction false} SameCodeFind(p: seq<Line>, q: seq<Line>, l: LabelName, i: nat)
    requires |p| == |q| && i <= |p| && forall k :: 0 <= k < |p| ==> SameCode(p[k], q[k])
    ensures FindFrom(q, l, i) == FindFrom(p, l, i)
    decreases |p| - i
  {
    if i < |p| {
      assert SameCode(p[i], q[i]);
      SameCodeFind(p, q, l, i + 1);
    }
  }

  lemma SameCodeEquivalent(env: Env, p: seq<Line>, q: seq<Line>, st: State)
    requires |p| == |q| && forall k :: 0 <= k < |p| ==> SameCode(p[k], q[k])
    ensures Equivalent(Flat(env, p, st), Flat(env, q, st))
  {
    var a, b := Flat(env, p, st), Flat(env, q, st);
    forall n: nat ensures CoveredBy(a(n), b) && CoveredBy(b(n), a) {
      SameCodeSteps(env, p, q, n, Run(0, st));
      assert Covers(a(n), b(n)) && Covers(b(n), a(n));
    }
  }

  /** Joining the first `k` lines of a group, one after another. */
  lemma {:induction false} JoinEquivalent(env: Env, pre: seq<Line>, lines: seq<Line>, k: nat, st: State)
    requires 1 <= k <= |lines| && forall i :: 1 <= i < k ==> lines[i].lbl == ""
    ensures Equivalent(Flat(env, pre + lines, st), Flat(env, pre + [Joined(lines[..k])] + lines[k..], st))
  {
    var q := pre + [Joined(lines[..k])] + lines[k..];
    if k == 1 {
      ConcatOne(lines[0]);
      assert lines[..1] == [lines[0]];
      var p := pre + lines;
      assert forall i :: 0 <= i < |p| ==> SameCode(p[i], q[i]);
      SameCodeEquivalent(env, p, q, st);
    } else {
      JoinEquivalent(env, pre, lines, k - 1, st);
      var p := pre + [Joined(lines[..k - 1])] + lines[k - 1..];
      ConcatSnoc(lines[..k - 1], lines[k - 1]);
      assert lines[..k] == lines[..k - 1] + [lines[k - 1]];
      assert p[|pre| + 1] == lines[k - 1];
      assert SplitAt(p, q, |pre|);
      SplitEquivalent(env, p, q, |pre|, st);
      EquivalentTransitive(Flat(env, pre + lines, st), Flat(env, p, st), Flat(env, q, st));
    }
  }

  lemma {:induction false} GrownUnlabelled(lay: Layout, cur: seq<Stmt>, lines: seq<Line>, i: nat)
    requires i < |lines| && Grown(lay, cur, lines, i).Some?
    ensures forall k :: i < k <= Grown(lay, cur, lines, i).value ==> lines[k].lbl == ""
    decreases |lines| - i
  {
    if i + 1 < |lines| && Fits(lay, cur, lines[i + 1]) && !lines[i + 1].eol {
      GrownUnlabelled(lay, cur + lines[i + 1].stmts, lines, i + 1);
    }
  }

  lemma {:induction false} MergeFromEquivalent(env: Env, lay: Layout, lines: seq<Line>, i: nat, done: seq<Line>,
                                               st: State)
    requires i <= |lines| && MergeFrom(lay, lines, i, done).Some?
    ensures Equivalent(Flat(env, done + lines[i..], st), Flat(env, MergeFrom(lay, lines, i, done).value, st))
    decreases |lines| - i
  {
    var rest := lines[i..];
    if i == |lines| {
      assert done + rest == done;
      SameCodeEquivalent(env, done, done, st);
    } else {
      var k := GroupLast(lay, lines, i).value + 1;
      if !lines[i].eol {
        GrownUnlabelled(lay, lines[i].stmts, lines, i);
      }
      JoinEquivalent(env, done, rest, k - i, st);
      assert rest[..k - i] == lines[i..k] && rest[k - i..] == lines[k..];
      var done' := done + [Joined(lines[i..k])];
      MergeFromEquivalent(env, lay, lines, k, done', st);
      EquivalentTransitive(Flat(env, done + rest, st), Flat(env, done' + lines[k..], st),
                           Flat(env, MergeFrom(lay, lines, i, done).value, st));
    }
  }

  /** Packing preserves the meaning, whatever the lengths of the lines are. */
  lemma MergeEquivalent(env: Env, lay: Layout, lines: seq<Line>, st: State)
    requires Merge(lay, lines).Some?
    ensures Equivalent(Flat(env, lines, st), Flat(env, Merge(lay, lines).value, st))
  {
    MergeFromEquivalent(env, lay, lines, 0, [], st);
    assert [] + lines[0..] == lines;
  }
}
