/** Short names for variables (pkg/optimizers/variable_names.go). */
module Naming {
  import opened Semantics
  import opened Lexing
  import opened Printing

  // ---- the sequence of names a, b, ..., z, aa, ab, ... ----

  predicate Letters(s: string) {
    forall i :: 0 <= i < |s| ==> 'a' <= s[i] <= 'z'
  }

  /** The name with number `n`; the numbers start with 1. */
  function NameOf(n: nat): (s: string)
    ensures Letters(s) && (s == "" <==> n == 0)
  {
    if n == 0 then "" else NameOf((n - 1) / 26) + ['a' + ((n - 1) % 26) as char]
  }

  /** The number of a name. */
  function NumberOf(s: string): nat
    requires Letters(s)
  {
    if s == "" then 0 else 26 * NumberOf(s[..|s| - 1]) + (s[|s| - 1] - 'a') as nat + 1
  }

  /** Different numbers have different names. */
  lemma {:induction false} NumberOfName(n: nat)
    ensures NumberOf(NameOf(n)) == n
  {
    if n > 0 {
      NumberOfName((n - 1) / 26);
      assert NameOf(n)[..|NameOf(n)| - 1] == NameOf((n - 1) / 26);
    }
  }

  /** Every word of letters is the name of some number. */
  lemma {:induction false} NameOfNumber(s: string)
    requires Letters(s)
    ensures NameOf(NumberOf(s)) == s
  {
    if s != "" {
      NameOfNumber(s[..|s| - 1]);
      assert s == s[..|s| - 1] + [s[|s| - 1]];
    }
  }

  /** Shorter words come first, words of equal length in alphabetical order. */
  ghost predicate Before(a: string, b: string) {
    |a| < |b| || (|a| == |b| && exists i :: 0 <= i < |a| && a[..i] == b[..i] && a[i] < b[i])
  }

  lemma BeforeSnoc(a: string, b: string, c: char, e: char)
    requires Before(a, b) || (a == b && c < e)
    ensures Before(a + [c], b + [e])
  {
    var a', b' := a + [c], b + [e];
    if a == b {
      assert a'[..|a|] == b'[..|a|] && a'[|a|] < b'[|a|];
    } else if |a| == |b| {
      var i :| 0 <= i < |a| && a[..i] == b[..i] && a[i] < b[i];
      assert a'[..i] == a[..i] && b'[..i] == b[..i] && a'[i] < b'[i];
    }
  }

  lemma {:induction false} NamesAscend(n: nat, m: nat)
    requires n < m
    ensures Before(NameOf(n), NameOf(m))
    decreases m
  {
    if n > 0 {
      var a, b := (n - 1) / 26, (m - 1) / 26;
      if a < b {
        NamesAscend(a, b);
      }
      BeforeSnoc(NameOf(a), NameOf(b), 'a' + ((n - 1) % 26) as char, 'a' + ((m - 1) % 26) as char);
    }
  }

  lemma PrefixPointwise(a: string, b: string, i: nat)
    requires i <= |a| == |b| && a[..i] == b[..i]
    ensures forall k :: 0 <= k < i ==> a[k] == b[k]
  {
    forall k | 0 <= k < i ensures a[k] == b[k] {
      assert a[k] == a[..i][k] && b[k] == b[..i][k];
    }
  }

  lemma BeforeAsymmetric(a: string, b: string)
    requires Before(a, b)
    ensures !Before(b, a) && a != b
  {
    if |a| == |b| {
      var i :| 0 <= i < |a| && a[..i] == b[..i] && a[i] < b[i];
      PrefixPointwise(a, b, i);
      forall j | 0 <= j < |a| && b[..j] == a[..j] ensures !(b[j] < a[j]) {
        PrefixPointwise(a, b, j);
      }
    }
  }

  /** The names come in the order of their length, and in alphabetical order among names of the same length. */
  lemma NamesOrdered(n: nat, m: nat)
    ensures n < m <==> Before(NameOf(n), NameOf(m))
  {
    if n < m {
      NamesAscend(n, m);
    } else if m < n {
      NamesAscend(m, n);
      BeforeAsymmetric(NameOf(m), NameOf(n));
    }
  }

  lemma NumberOfSnoc(s: string, c: char)
    requires Letters(s) && 'a' <= c <= 'z'
    ensures NumberOf(s + [c]) == 26 * NumberOf(s) + (c - 'a') as nat + 1
  {
    assert (s + [c])[..|s|] == s;
  }

  // ---- which names can stand in a program ----

  lemma {:induction false} LettersWord(s: string)
    requires Letters(s)
    ensures WordLen(s) == |s| && Lower(s) == s
  {
    if s != "" {
      LettersWord(s[1..]);
      assert Lower(s) == s;
    }
  }

  /** The generator does not know the keywords: a generated name is an identifier if and only if it is none of them. */
  lemma GeneratedIsId(n: nat)
    requires n > 0
    ensures IsId(NameOf(n)) <==> NameOf(n) !in KEYWORDS
  {
    var s := NameOf(n);
    LettersWord(s);
    assert s[0..] == s;
  }

  /** The first keyword comes at number 240. */
  lemma KeywordGenerated()
    ensures NameOf(240) == ['i', 'f'] && !IsId(NameOf(240))
  {
    TwoLetters('i', 'f');
    NameOfNumber(['i', 'f']);
    GeneratedIsId(240);
  }

  /** Longer names come later. */
  lemma LongNames(s: string)
    requires Letters(s)
    ensures |s| >= 1 ==> NumberOf(s) >= 1
    ensures |s| >= 2 ==> NumberOf(s) >= 27
    ensures |s| >= 3 ==> NumberOf(s) >= 703
  {
    if |s| >= 1 {
      LongNames(s[..|s| - 1]);
    }
  }

  lemma TwoLetters(a: char, b: char)
    requires 'a' <= a <= 'z' && 'a' <= b <= 'z'
    ensures NumberOf([a, b]) == 26 * ((a - 'a') as nat + 1) + (b - 'a') as nat + 1
  {
    NumberOfSnoc([], a);
    NumberOfSnoc([a], b);
    assert [] + [a] == [a] && [a] + [b] == [a, b];
  }

  lemma ShortKeywords(w: string)
    requires w in KEYWORDS && |w| <= 2
    ensures w == ['i', 'f'] || w == ['o', 'r']
  {
  }

  lemma KeywordNumbers(w: string)
    requires w in KEYWORDS && Letters(w)
    ensures NumberOf(w) >= 240
  {
    LongNames(w);
    if |w| <= 2 {
      ShortKeywords(w);
      TwoLetters('i', 'f');
      TwoLetters('o', 'r');
    }
  }

  /** With fewer than 240 local variables, all short names are identifiers. */
  lemma FirstNamesAreIds(n: nat)
    requires 0 < n < 240
    ensures IsId(NameOf(n))
  {
    NumberOfName(n);
    if NameOf(n) in KEYWORDS {
      KeywordNumbers(NameOf(n));
    }
    GeneratedIsId(n);
  }

  // ---- the table of names ----

  /** The names given so far, the way back, and the number of the next name. */
  datatype Names = Names(mapping: map<string, string>, inverse: map<string, string>, next: nat)

  const NO_NAMES := Names(map[], map[], 1)

  /** The short name for a variable; names of shared variables stay. */
  function Short(names: Names, x: string): (Names, string) {
    if IsGlobal(x) then (names, x)
    else
      var key := Lower(x);
      if key in names.mapping then (names, names.mapping[key])
      else
        var s := NameOf(names.next);
        (Names(names.mapping[key := s], names.inverse[s := x], names.next + 1), s)
  }

  ghost predicate MappedBelow(names: Names, key: string) {
    key in names.mapping ==>
      1 <= NumberIn(names, key) < names.next && names.mapping[key] == NameOf(NumberIn(names, key)) && !IsGlobal(key)
  }

  ghost function NumberIn(names: Names, key: string): nat {
    if key in names.mapping && Letters(names.mapping[key]) then NumberOf(names.mapping[key]) else 0
  }

  /** A name stands for one variable, and the way back leads there. */
  ghost predicate WayBack(names: Names, key: string) {
    key in names.mapping ==>
      names.mapping[key] in names.inverse && Lower(names.inverse[names.mapping[key]]) == key
  }

  ghost predicate NamesOk(names: Names) {
    && names.next >= 1
    && (forall key {:trigger MappedBelow(names, key)} :: MappedBelow(names, key))
    && (forall key {:trigger WayBack(names, key)} :: WayBack(names, key))
  }

  /** A new name is given to one more variable. */
  lemma NewNameOk(names: Names, x: string, key: string)
    requires NamesOk(names) && !IsGlobal(x) && Lower(x) !in names.mapping
    ensures MappedBelow(Short(names, x).0, key) && WayBack(Short(names, x).0, key)
  {
    NumberOfName(names.next);
    assert MappedBelow(names, key) && WayBack(names, key);
    if key != Lower(x) && key in names.mapping {
      NumberOfName(NumberIn(names, key));
    }
  }

  lemma ShortOk(names: Names, x: string)
    requires NamesOk(names)
    ensures NamesOk(Short(names, x).0)
  {
    var names' := Short(names, x).0;
    if names' != names {
      forall key ensures MappedBelow(names', key) {
        NewNameOk(names, x, key);
      }
      forall key ensures WayBack(names', key) {
        NewNameOk(names, x, key);
      }
    }
  }

  /** Names once given are kept. */
  ghost predicate Extends(a: Names, b: Names) {
    forall key :: key in a.mapping ==> key in b.mapping && b.mapping[key] == a.mapping[key]
  }

  /** What a table makes of a name. */
  function Renamed(names: Names, x: string): string {
    if !IsGlobal(x) && Lower(x) in names.mapping then names.mapping[Lower(x)] else x
  }

  /** The answers to a sequence of calls. */
  function Answers(names: Names, xs: seq<string>): (r: (Names, seq<string>))
    ensures |r.1| == |xs|
    decreases |xs|
  {
    if xs == [] then (names, [])
    else
      var (n1, s) := Short(names, xs[0]);
      var (n2, rest) := Answers(n1, xs[1..]);
      (n2, [s] + rest)
  }

  /** Every answer is what the final table says, and the table says it of all names that were asked for. */
  lemma {:induction false} AnswersFinal(names: Names, xs: seq<string>)
    requires NamesOk(names)
    ensures var (n, ss) := Answers(names, xs);
            && NamesOk(n) && Extends(names, n)
            && forall i :: 0 <= i < |xs| ==>
               ss[i] == Renamed(n, xs[i]) && (IsGlobal(xs[i]) || Lower(xs[i]) in n.mapping)
    decreases |xs|
  {
    if xs != [] {
      ShortOk(names, xs[0]);
      AnswersFinal(Short(names, xs[0]).0, xs[1..]);
    }
  }

  lemma RenamedLocal(names: Names, x: string, y: string)
    requires NamesOk(names) && !IsGlobal(x) && !IsGlobal(y) && Lower(x) in names.mapping && Lower(y) in names.mapping
    ensures Renamed(names, x) == Renamed(names, y) <==> Lower(x) == Lower(y)
    ensures !IsGlobal(Renamed(names, x)) && Letters(Renamed(names, x)) && Renamed(names, x) != ""
    ensures Renamed(names, x) in names.inverse && Lower(names.inverse[Renamed(names, x)]) == Lower(x)
  {
    assert WayBack(names, Lower(x)) && WayBack(names, Lower(y));
    assert MappedBelow(names, Lower(x));
  }

  /** Over any sequence of calls, two local names get the same short name exactly if they are equal ignoring case; the
      names of shared variables stay and cannot be confused with short names; and the reversal table leads back. */
  lemma RenamingSound(xs: seq<string>, i: nat, j: nat)
    requires i < |xs| && j < |xs|
    ensures var (n, ss) := Answers(NO_NAMES, xs);
            && (IsGlobal(xs[i]) ==> ss[i] == xs[i])
            && (!IsGlobal(xs[i]) ==> Letters(ss[i]) && ss[i] in n.inverse && Lower(n.inverse[ss[i]]) == Lower(xs[i]))
            && (!IsGlobal(xs[i]) && !IsGlobal(xs[j]) ==> (ss[i] == ss[j] <==> Lower(xs[i]) == Lower(xs[j])))
            && (!IsGlobal(xs[i]) && IsGlobal(xs[j]) ==> ss[i] != ss[j])
  {
    assert NamesOk(NO_NAMES);
    AnswersFinal(NO_NAMES, xs);
    var n := Answers(NO_NAMES, xs).0;
    if !IsGlobal(xs[i]) {
      RenamedLocal(n, xs[i], xs[i]);
      if !IsGlobal(xs[j]) {
        RenamedLocal(n, xs[i], xs[j]);
      }
    }
  }

  /** As long as fewer than 240 local variables have been renamed, every short name is an identifier. */
  lemma FewNamesAreIds(names: Names, x: string)
    requires NamesOk(names) && names.next <= 240 && !IsGlobal(x) && Lower(x) in names.mapping
    ensures IsId(Renamed(names, x))
  {
    assert MappedBelow(names, Lower(x));
    FirstNamesAreIds(NumberIn(names, Lower(x)));
  }

  // ---- the optimizer ----

  class VariableNameOptimizer {
    var variableMappings: map<string, string>
    var invertedMappings: map<string, string>
    var varNumber: nat

    constructor ()
      ensures Table() == NO_NAMES
    {
      variableMappings, invertedMappings, varNumber := map[], map[], 1;
    }

    function Table(): Names
      reads this
    {
      Names(variableMappings, invertedMappings, varNumber)
    }

    method GetNextVarName() returns (varname: string)
      modifies this`varNumber
      ensures varname == NameOf(old(varNumber)) && varNumber == old(varNumber) + 1
    {
      var base := 26;
      var varnum := varNumber;
      varname := "";
      while varnum > 0
        invariant NameOf(varNumber) == NameOf(varnum) + varname
      {
        var rem := varnum % base;
        ghost var before := varnum;
        if rem == 0 {
          rem := base;
          varnum := varnum / base - 1;
        } else {
          varnum := varnum / base;
        }
        assert varnum == (before - 1) / 26 && rem - 1 == (before - 1) % 26;
        varname := [(rem - 1 + 97) as char] + varname;
        assert NameOf(before) == NameOf(varnum) + [varname[0]];
      }
      varNumber := varNumber + 1;
    }

    method OptimizeVarName(x: string) returns (newName: string)
      modifies this
      ensures (Table(), newName) == Short(old(Table()), x)
    {
      if |x| > 0 && x[0] == ':' {
        return x;
      }
      var lin := Lower(x);
      if lin in variableMappings {
        return variableMappings[lin];
      }
      newName := GetNextVarName();
      variableMappings := variableMappings[lin := newName];
      invertedMappings := invertedMappings[newName := x];
    }
  }
}
