/** Which characters make which token (pkg/parser/ast/tokenizer.go), by the characters alone. */
module Reading {
  import opened Ast
  import opened Semantics
  import opened Lexing
  import opened Printing

  // ---- shapes ----

  predicate AllDigits(t: string) {
    t != "" && forall i :: 0 <= i < |t| ==> '0' <= t[i] <= '9'
  }

  /** Digits, or digits, a dot and digits. */
  ghost predicate DecimalShape(t: string) {
    AllDigits(t) || exists a, b :: AllDigits(a) && AllDigits(b) && t == a + "." + b
  }

  predicate Alphabetic(c: char) {
    'a' <= c <= 'z' || 'A' <= c <= 'Z'
  }

  predicate InWord(c: char) {
    Alphabetic(c) || '0' <= c <= '9' || c == '_'
  }

  /** A letter, and any number of letters, digits and underscores. */
  predicate WordShape(w: string) {
    w != "" && Alphabetic(w[0]) && forall i :: 0 <= i < |w| ==> InWord(w[i])
  }

  predicate IsReserved(w: string) {
    Lower(w) in {"if", "else", "end", "then", "goto", "and", "or", "not", "abs", "sqrt", "sin", "cos", "tan", "asin",
                 "acos", "atan"}
  }

  /** A word that is no keyword, or a colon and a word. */
  predicate NameShape(x: string) {
    (WordShape(x) && !IsReserved(x)) || (x != "" && x[0] == ':' && WordShape(x[1..]))
  }

  /** No word goes on here. */
  predicate EndsWord(rest: string) {
    rest != "" ==> !InWord(rest[0])
  }

  predicate EndsDigits(rest: string) {
    rest != "" ==> !('0' <= rest[0] <= '9')
  }

  // ---- stretches of characters ----

  lemma {:induction false} SpanAll(p: char -> bool, s: string)
    requires forall i :: 0 <= i < |s| ==> p(s[i])
    ensures Span(p, s) == |s|
  {
    if s != "" {
      SpanAll(p, s[1..]);
    }
  }

  lemma {:induction false} SpanUpTo(p: char -> bool, s: string, rest: string)
    requires (forall i :: 0 <= i < |s| ==> p(s[i])) && (rest != "" ==> !p(rest[0]))
    ensures Span(p, s + rest) == |s|
  {
    SpanAll(p, s);
    SpanAppend(p, s, rest);
  }

  lemma DigitsUpTo(a: string, rest: string)
    requires AllDigits(a) && EndsDigits(rest)
    ensures DigitLen(a + rest) == |a|
  {
    SpanUpTo(c => IsDigit(c), a, rest);
  }

  lemma WordUpTo(w: string, rest: string)
    requires WordShape(w) && EndsWord(rest)
    ensures WordLen(w + rest) == |w|
  {
    SpanUpTo(c => IsWordChar(c), w, rest);
  }

  // ---- numbers ----

  /** A number with decimals is one token, whatever follows its last digit. */
  lemma ReadDecimal(a: string, b: string, rest: string)
    requires AllDigits(a) && AllDigits(b) && EndsDigits(rest)
    ensures TokenAt(a + "." + b + rest) == (Number(a + "." + b), |a| + 1 + |b|)
  {
    var s := a + "." + b + rest;
    assert s[0] == a[0] && s[..|a| + 1 + |b|] == a + "." + b;
    DecimalLen(a, b, rest);
    StartsNumber(s);
  }

  lemma DecimalLen(a: string, b: string, rest: string)
    requires AllDigits(a) && AllDigits(b) && EndsDigits(rest)
    ensures NumberLen(a + "." + b + rest) == |a| + 1 + |b|
  {
    var s := a + "." + b + rest;
    assert s == a + ("." + b + rest);
    DigitsUpTo(a, "." + b + rest);
    assert s[|a|] == '.' && s[|a| + 1..] == b + rest;
    DigitsUpTo(b, rest);
  }

  /** Digits are one token, if no decimals follow. */
  lemma ReadInteger(a: string, rest: string)
    requires AllDigits(a) && EndsDigits(rest)
    requires |rest| >= 2 && rest[0] == '.' ==> !('0' <= rest[1] <= '9')
    ensures TokenAt(a + rest) == (Number(a), |a|)
  {
    var s := a + rest;
    assert s[0] == a[0] && s[..|a|] == a;
    DigitsUpTo(a, rest);
    assert rest != "" ==> s[|a|] == rest[0] && s[|a| + 1..] == rest[1..];
    StartsNumber(s);
  }

  lemma StartsNumber(s: string)
    requires s != "" && '0' <= s[0] <= '9'
    ensures TokenAt(s) == (Number(s[..NumberLen(s)]), NumberLen(s))
  {
    NoKeyword(s);
    NoSymbol(s);
  }

  /** The numbers that can be written down. */
  lemma NumbersAreDecimal(t: string)
    ensures IsNumber(t) <==> DecimalShape(t)
  {
    if IsNumber(t) {
      var d := DigitLen(t);
      SpanHolds(c => IsDigit(c), t);
      if d < |t| {
        SpanHolds(c => IsDigit(c), t[d + 1..]);
        assert t == t[..d] + "." + t[d + 1..];
        assert AllDigits(t[..d]) && AllDigits(t[d + 1..]);
      }
    }
    if AllDigits(t) {
      assert t + "" == t;
      DigitsUpTo(t, "");
    }
    if a, b :| AllDigits(a) && AllDigits(b) && t == a + "." + b {
      assert t == a + ("." + b) && t[|a| + 1..] == b && b + "" == b;
      DigitsUpTo(a, "." + b);
      DigitsUpTo(b, "");
    }
  }

  // ---- words ----

  lemma KeywordsListed(w: string)
    ensures IsReserved(w) <==> Lower(w) in KEYWORDS
  {
  }

  /** A keyword is one in any mixture of cases, if the word ends there. */
  lemma ReadReserved(w: string, rest: string)
    requires WordShape(w) && IsReserved(w) && EndsWord(rest)
    ensures TokenAt(w + rest) == (Keyword(Lower(w)), |w|)
  {
    var s := w + rest;
    WordUpTo(w, rest);
    assert s[..|w|] == w && s[0] == w[0];
  }

  lemma ReadName(x: string, rest: string)
    requires NameShape(x) && EndsWord(rest)
    ensures TokenAt(x + rest) == (Id(x), |x|)
  {
    var s := x + rest;
    assert s[..|x|] == x && s[0] == x[0];
    if x[0] == ':' {
      assert s[1..] == x[1..] + rest;
      WordUpTo(x[1..], rest);
      assert IdLen(s) == |x|;
      NoKeyword(s);
    } else {
      WordUpTo(x, rest);
      assert s[0..] == s && IdLen(s) == |x|;
      KeywordsListed(x);
      assert s[..WordLen(s)] == x && KeywordLen(s) == 0;
    }
    NameToken(s);
  }

  lemma NameToken(s: string)
    requires s != "" && IdLen(s) > 0 && KeywordLen(s) == 0
    ensures TokenAt(s) == (Id(s[..IdLen(s)]), IdLen(s))
  {
    NoSymbol(s);
  }

  /** The names that can stand in a program. */
  lemma NamesAreWords(x: string)
    ensures IsId(x) <==> NameShape(x)
  {
    if x != "" {
      var p := if x[0] == ':' then 1 else 0;
      if IsId(x) {
        SpanHolds(c => IsWordChar(c), x[p..]);
        assert p == 0 ==> x[p..] == x;
      }
      if NameShape(x) {
        assert x[p..] + "" == x[p..];
        WordUpTo(x[p..], "");
        if p == 1 && Lower(x) in KEYWORDS {
          assert Lower(x)[0] == ':';
          KeywordsAreWords(Lower(x));
        }
      }
    }
  }

  // ---- everything else ----

  /** A comment goes on to the end of the line. */
  lemma ReadComment(t: string, rest: string)
    requires '\n' !in t && (rest != "" ==> rest[0] == '\n')
    ensures TokenAt("//" + t + rest) == (Comment("//" + t), 2 + |t|)
  {
    var s := "//" + t + rest;
    assert s[2..] == t + rest && s[..2 + |t|] == "//" + t;
    SpanUpTo(c => c != '\n', t, rest);
  }

  /** Blanks are one token, as many as there are; a newline is one of its own. */
  lemma ReadBlanks(t: string, rest: string)
    requires t != "" && forall i :: 0 <= i < |t| ==> t[i] == ' ' || t[i] == '\t' || t[i] == '\r'
    requires rest != "" ==> rest[0] != ' ' && rest[0] != '\t' && rest[0] != '\r'
    ensures TokenAt(t + rest) == (Whitespace, |t|)
    ensures TokenAt("\n" + rest) == (Newline, 1) && TokenAt("") == (EOF, 0)
  {
    var s := t + rest;
    assert s[0] == t[0];
    SpanUpTo(c => IsBlank(c), t, rest);
    NoKeyword("\n" + rest);
  }

  predicate IsPair(y: string) {
    y in {"++", "--", ">=", "<=", "!=", "==", "+=", "-=", "*=", "/=", "%="}
  }

  predicate IsSign(y: string) {
    y in {"=", ">", "<", "+", "-", "*", "/", "^", "%", ",", "(", ")"}
  }

  lemma PairsListed(y: string)
    requires IsPair(y)
    ensures y in SYMBOLS && |y| == 2
  {
    assert y == SYMBOLS[0] || y == SYMBOLS[1] || y == SYMBOLS[2] || y == SYMBOLS[3] || y == SYMBOLS[4] ||
           y == SYMBOLS[5] || y == SYMBOLS[7] || y == SYMBOLS[8] || y == SYMBOLS[9] || y == SYMBOLS[10] ||
           y == SYMBOLS[11];
  }

  lemma SignsListed(y: string)
    requires IsSign(y)
    ensures y in SYMBOLS && |y| == 1
  {
    assert y == SYMBOLS[12] || y == SYMBOLS[13] || y == SYMBOLS[14] || y == SYMBOLS[15] || y == SYMBOLS[16] ||
           y == SYMBOLS[17] || y == SYMBOLS[18] || y == SYMBOLS[19] || y == SYMBOLS[20] || y == SYMBOLS[21] ||
           y == SYMBOLS[22] || y == SYMBOLS[23];
  }

  /** Two characters that are a symbol together are never read as two. */
  lemma ReadPair(y: string, rest: string)
    requires IsPair(y)
    ensures TokenAt(y + rest) == (Symbol(y), 2)
  {
    PairsListed(y);
    ReadSymbol(y, rest);
  }

  /** A character that is a symbol is read alone if it starts no pair and no comment. */
  lemma ReadSign(y: string, rest: string)
    requires IsSign(y) && (rest != "" ==> !IsPair(y + rest[..1]) && y + rest[..1] != "//")
    ensures TokenAt(y + rest) == (Symbol(y), 1)
  {
    var s := y + rest;
    SignIsPlain(y);
    SignFound(y, rest);
    assert s[0] == y[0];
    assert rest != "" ==> s[1] == rest[0] && y + rest[..1] == [s[0], s[1]];
    SignToken(s, y);
  }

  lemma SignToken(s: string, y: string)
    requires s != "" && SymbolAt(s) == Some(y) && !IsLetter(s[0]) && !IsBlank(s[0]) && s[0] != '\n'
    requires |s| > 1 ==> [s[0], s[1]] != "//"
    ensures TokenAt(s) == (Symbol(y), |y|)
  {
    NoKeyword(s);
  }

  lemma SignIsPlain(y: string)
    requires IsSign(y)
    ensures |y| == 1 && !IsLetter(y[0]) && !IsBlank(y[0]) && y[0] != '\n'
  {
  }

  lemma SignFound(y: string, rest: string)
    requires IsSign(y) && (rest != "" ==> !IsPair(y + rest[..1]))
    ensures SymbolAt(y + rest) == Some(y)
  {
    SignsListed(y);
    SymbolsLength();
    var j :| 0 <= j < |SYMBOLS| && SYMBOLS[j] == y;
    NoPairAt(y, rest, 0);
    SymbolFound(y + rest, 12, j);
  }

  lemma {:induction false} NoPairAt(y: string, rest: string, i: nat)
    requires i <= 12 && |y| == 1 && (rest != "" ==> !IsPair(y + rest[..1]))
    ensures FirstSymbol(y + rest, i) == FirstSymbol(y + rest, 12)
    decreases 12 - i
  {
    if i < 12 {
      var s := y + rest;
      SymbolsLength();
      PairListed(i);
      StartOf(SYMBOLS[i], y[0], rest);
      assert s == [y[0]] + rest && (rest != "" ==> y + rest[..1] == [y[0], rest[0]]);
      NoPairAt(y, rest, i + 1);
    }
  }

  lemma PairListed(i: nat)
    requires i < 12
    ensures IsPair(SYMBOLS[i])
  {
  }

  /** A character that starts nothing is passed on alone; so is a quote that is never closed. */
  lemma ReadUnknown(c: char, rest: string)
    requires !InWord(c) && c !in {' ', '\t', '\r', '\n', ':', '"'} && !IsSign([c])
    requires rest != "" ==> !IsPair([c, rest[0]])
    ensures TokenAt([c] + rest) == (Unknown(c), 1)
  {
    var s := [c] + rest;
    NoKeyword(s);
    NoSymbolFrom(c, rest, 0);
    assert CommentLen(s) == 0;
  }

  lemma {:induction false} NoSymbolFrom(c: char, rest: string, i: nat)
    requires i <= |SYMBOLS| && !IsSign([c]) && (rest != "" ==> !IsPair([c, rest[0]]))
    ensures FirstSymbol([c] + rest, i) == None
    decreases |SYMBOLS| - i
  {
    if i < |SYMBOLS| {
      SymbolsLength();
      if i < 12 {
        PairListed(i);
      } else {
        SignListed(i);
      }
      StartOf(SYMBOLS[i], c, rest);
      NoSymbolFrom(c, rest, i + 1);
    }
  }

  lemma StartOf(y: string, c: char, rest: string)
    requires 1 <= |y| <= 2
    ensures y <= [c] + rest ==> y == [c] || (rest != "" && y == [c, rest[0]])
  {
    var s := [c] + rest;
    if y <= s {
      assert y == s[..|y|];
    }
  }

  lemma SignListed(i: nat)
    requires 12 <= i < |SYMBOLS|
    ensures IsSign(SYMBOLS[i])
  {
  }

  lemma ReadOpenQuote(rest: string)
    requires '"' !in rest
    ensures TokenAt("\"" + rest) == (Unknown('"'), 1)
  {
    var s := "\"" + rest;
    assert s[1..] == rest;
    NoKeyword(s);
    NoSymbol(s);
    NeverCloses(rest, false, "", 1);
  }

  lemma {:induction false} NeverCloses(s: string, escaped: bool, str: string, n: nat)
    requires '"' !in s
    ensures StringFrom(s, escaped, str, n) == None
    decreases |s|
  {
    if s != "" {
      NeverCloses(s[1..], s[0] == '\\' || (escaped && !IsEscape(s[0])),
                  if s[0] == '\\' then str else str + [if escaped && IsEscape(s[0]) then Unescaped(s[0]) else s[0]],
                  n + 1);
    }
  }

  // ---- string constants with any escapes ----

  /** A backslash before n, t and a quote stands for the character, in any other place it disappears. It stays in force
      until one of these three comes. */
  lemma StringSteps(s: string, escaped: bool, str: string, n: nat, c: char)
    ensures StringFrom("\\" + s, escaped, str, n) == StringFrom(s, true, str, n + 1)
    ensures StringFrom("n" + s, true, str, n) == StringFrom(s, false, str + "\n", n + 1)
    ensures StringFrom("t" + s, true, str, n) == StringFrom(s, false, str + "\t", n + 1)
    ensures StringFrom("\"" + s, true, str, n) == StringFrom(s, false, str + "\"", n + 1)
    ensures StringFrom("\"" + s, false, str, n) == Some((str, n + 1))
    ensures c !in {'\\', '"'} ==> StringFrom([c] + s, false, str, n) == StringFrom(s, false, str + [c], n + 1)
    ensures c !in {'\\', '"', 'n', 't'} ==> StringFrom([c] + s, true, str, n) == StringFrom(s, true, str + [c], n + 1)
  {
    assert ("\\" + s)[1..] == s && ("n" + s)[1..] == s && ("t" + s)[1..] == s && ("\"" + s)[1..] == s;
    assert ([c] + s)[1..] == s;
  }
}
