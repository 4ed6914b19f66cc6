/** The labels that the compiler makes up for ifs and loops. */
module Labels {
  import opened Ast
  import opened Operations

  datatype Gen =
    | LoopStart(n: nat)
    | LoopEnd(n: nat)
    | IfEnd(n: nat)
    | IfSkip(n: nat, branch: nat)

  function Text(g: Gen): LabelName {
    match g
    case LoopStart(n) => "while" + Itoa(n)
    case LoopEnd(n) => "endwhile" + Itoa(n)
    case IfEnd(n) => "endif" + Itoa(n)
    case IfSkip(n, i) => "iflbl" + Itoa(n) + "-" + Itoa(i)
  }

  /** A label of the form the compiler uses itself. */
  ghost predicate Reserved(l: string) {
    exists g :: Text(g) == l
  }

  lemma {:induction false} ItoaDigits(n: nat)
    ensures forall c :: c in Itoa(n) ==> '0' <= c <= '9'
  {
    if n >= 10 {
      ItoaDigits(n / 10);
    }
  }

  lemma {:induction false} ItoaInjective(n: nat, m: nat)
    requires Itoa(n) == Itoa(m)
    ensures n == m
  {
    var s, t := Itoa(n), Itoa(m);
    assert s[|s| - 1] == Digit(n % 10) && t[|t| - 1] == Digit(m % 10);
    if n >= 10 && m >= 10 {
      assert Itoa(n / 10) == s[..|s| - 1] && Itoa(m / 10) == t[..|t| - 1];
      ItoaInjective(n / 10, m / 10);
    }
  }

  lemma SplitAtDash(a: string, b: string, a': string, b': string)
    requires a + "-" + b == a' + "-" + b'
    requires '-' !in a && '-' !in a'
    ensures a == a' && b == b'
  {
    var s := a + "-" + b;
    assert s[|a|] == '-' && s[|a'|] == '-';
    assert forall i :: 0 <= i < |a| ==> s[i] == a[i] && a[i] != '-';
    assert forall i :: 0 <= i < |a'| ==> s[i] == a'[i] && a'[i] != '-';
    assert |a| == |a'|;
    assert a == s[..|a|] && a' == s[..|a'|];
    assert b == s[|a| + 1..] && b' == s[|a'| + 1..];
  }

  lemma SamePrefix(p: string, a: string, b: string)
    requires p + a == p + b
    ensures a == b
  {
    assert a == (p + a)[|p|..] && b == (p + b)[|p|..];
  }

  /** Different kinds of labels begin differently. */
  lemma TextKind(g: Gen, h: Gen)
    requires Text(g) == Text(h)
    ensures g.LoopStart? == h.LoopStart? && g.LoopEnd? == h.LoopEnd? && g.IfEnd? == h.IfEnd?
  {
    assert Text(g)[0] == if g.LoopStart? then 'w' else if g.IfSkip? then 'i' else 'e';
    assert Text(h)[0] == if h.LoopStart? then 'w' else if h.IfSkip? then 'i' else 'e';
    if Text(g)[0] == 'e' {
      assert Text(g)[3] == if g.LoopEnd? then 'w' else 'i';
      assert Text(h)[3] == if h.LoopEnd? then 'w' else 'i';
    }
  }

  /** No two of these labels are the same text. */
  lemma TextInjective(g: Gen, h: Gen)
    requires Text(g) == Text(h)
    ensures g == h
  {
    TextKind(g, h);
    match g
    case LoopStart(n) =>
      SamePrefix("while", Itoa(n), Itoa(h.n));
      ItoaInjective(n, h.n);
    case LoopEnd(n) =>
      SamePrefix("endwhile", Itoa(n), Itoa(h.n));
      ItoaInjective(n, h.n);
    case IfEnd(n) =>
      SamePrefix("endif", Itoa(n), Itoa(h.n));
      ItoaInjective(n, h.n);
    case IfSkip(n, i) =>
      var a, b := Itoa(n) + "-" + Itoa(i), Itoa(h.n) + "-" + Itoa(h.branch);
      assert Text(g) == "iflbl" + a && Text(h) == "iflbl" + b;
      SamePrefix("iflbl", a, b);
      ItoaDigits(n);
      ItoaDigits(h.n);
      SplitAtDash(Itoa(n), Itoa(i), Itoa(h.n), Itoa(h.branch));
      ItoaInjective(n, h.n);
      ItoaInjective(i, h.branch);
  }

  /** What the labels look like. */
  lemma LabelTexts()
    ensures Text(LoopStart(1)) == "while1" && Text(LoopEnd(12)) == "endwhile12"
    ensures Text(IfEnd(0)) == "endif0" && Text(IfSkip(3, 0)) == "iflbl3-0"
  {
    assert Itoa(1) == "1" && Itoa(12) == Itoa(1) + "2" && Itoa(0) == "0" && Itoa(3) == "3";
  }
}
