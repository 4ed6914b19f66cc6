/** Splitting source text into tokens (pkg/parser/ast/tokenizer.go). Text is a sequence of ASCII characters. */
module Lexing {
  import opened Ast
  import opened Semantics

  datatype Token =
    | Id(name: string)
    | Number(digits: string)
    | Text(value: string)
    | Keyword(word: string)
    | Symbol(symbol: string)
    | Newline
    | Comment(text: string)
    | Whitespace
    | EOF
    | Unknown(c: char)

  /** Longer symbols come before shorter ones. */
  const SYMBOLS: seq<string> := ["++", "--", ">=", "<=", "!=", "==", "==", "+=", "-=", "*=", "/=", "%=",
    "=", ">", "<", "+", "-", "*", "/", "^", "%", ",", "(", ")"]

  const KEYWORDS: set<string> := {"if", "else", "end", "then", "goto", "and", "or", "not", "abs", "sqrt",
    "sin", "cos", "tan", "asin", "acos", "atan"}

  predicate IsLetter(c: char) {
    'a' <= c <= 'z' || 'A' <= c <= 'Z'
  }

  predicate IsDigit(c: char) {
    '0' <= c <= '9'
  }

  predicate IsWordChar(c: char) {
    IsLetter(c) || IsDigit(c) || c == '_'
  }

  predicate IsBlank(c: char) {
    c == ' ' || c == '\t' || c == '\r'
  }

  /** How many characters from the start on satisfy the predicate. */
  function Span(p: char -> bool, s: string): (n: nat)
    ensures n <= |s|
  {
    if s == "" || !p(s[0]) then 0 else 1 + Span(p, s[1..])
  }

  function WordLen(s: string): nat {
    Span(c => IsWordChar(c), s)
  }

  function DigitLen(s: string): nat {
    Span(c => IsDigit(c), s)
  }

  /** The length of the keyword at the start; a keyword is a whole word. */
  function KeywordLen(s: string): nat {
    if Lower(s[..WordLen(s)]) in KEYWORDS then WordLen(s) else 0
  }

  /** The length of the identifier at the start. */
  function IdLen(s: string): (n: nat)
    ensures n <= |s|
  {
    var p := if s != "" && s[0] == ':' then 1 else 0;
    if p < |s| && IsLetter(s[p]) then p + WordLen(s[p..]) else 0
  }

  function NumberLen(s: string): (n: nat)
    ensures n <= |s|
  {
    var d := DigitLen(s);
    if d > 0 && d < |s| && s[d] == '.' && DigitLen(s[d + 1..]) > 0 then d + 1 + DigitLen(s[d + 1..]) else d
  }

  function CommentLen(s: string): (n: nat)
    ensures n <= |s|
  {
    if |s| >= 2 && s[0] == '/' && s[1] == '/' then 2 + Span(c => c != '\n', s[2..]) else 0
  }

  /** The first symbol of the list from number `i` on that the text starts with. */
  function FirstSymbol(s: string, i: nat): (r: Option<string>)
    requires i <= |SYMBOLS|
    ensures r.Some? ==> r.value in SYMBOLS && r.value <= s
    decreases |SYMBOLS| - i
  {
    if i == |SYMBOLS| then None
    else if SYMBOLS[i] <= s then Some(SYMBOLS[i])
    else FirstSymbol(s, i + 1)
  }

  /** The symbol at the start of the text. */
  function SymbolAt(s: string): (r: Option<string>)
    ensures r.Some? ==> r.value in SYMBOLS && r.value <= s
  {
    FirstSymbol(s, 0)
  }

  predicate IsEscape(c: char) {
    c == 'n' || c == 't' || c == '"'
  }

  function Unescaped(c: char): char {
    if c == 'n' then '\n' else if c == 't' then '\t' else c
  }

  /** The content of a string constant that goes on with `s`, and how much of `s` belongs to it. A backslash
      before any other character than n, t and the quote disappears. */
  function StringFrom(s: string, escaped: bool, str: string, n: nat): (r: Option<(string, nat)>)
    ensures r.Some? ==> n < r.value.1 <= n + |s|
    decreases |s|
  {
    if s == "" then None
    else if s[0] == '\\' then StringFrom(s[1..], true, str, n + 1)
    else if escaped && IsEscape(s[0]) then StringFrom(s[1..], false, str + [Unescaped(s[0])], n + 1)
    else if s[0] == '"' then Some((str, n + 1))
    else StringFrom(s[1..], escaped, str + [s[0]], n + 1)
  }

  function StringAt(s: string): (r: Option<(string, nat)>)
    ensures r.Some? ==> 1 < r.value.1 <= |s|
  {
    if |s| < 2 || s[0] != '"' then None else StringFrom(s[1..], false, "", 1)
  }

  /** The token at the start of the text, and its length. */
  function TokenAt(s: string): (r: (Token, nat))
    ensures r.1 <= |s| && (r.1 > 0 <==> s != "") && (r.0.EOF? <==> s == "")
  {
    if CommentLen(s) > 0 then (Comment(s[..CommentLen(s)]), CommentLen(s))
    else if s == "" then (EOF, 0)
    else if IsBlank(s[0]) then (Whitespace, Span(c => IsBlank(c), s))
    else if KeywordLen(s) > 0 then (Keyword(Lower(s[..KeywordLen(s)])), KeywordLen(s))
    else if s[0] == '\n' then (Newline, 1)
    else if SymbolAt(s).Some? then
      SymbolsLength();
      (Symbol(SymbolAt(s).value), |SymbolAt(s).value|)
    else if IdLen(s) > 0 then (Id(s[..IdLen(s)]), IdLen(s))
    else if StringAt(s).Some? then (Text(StringAt(s).value.0), StringAt(s).value.1)
    else if NumberLen(s) > 0 then (Number(s[..NumberLen(s)]), NumberLen(s))
    else (Unknown(s[0]), 1)
  }

  /** All tokens of a text but the whitespace. */
  function Lex(s: string): seq<Token>
    decreases |s|
  {
    var (t, n) := TokenAt(s);
    if t.EOF? then [] else (if t.Whitespace? then [] else [t]) + Lex(s[n..])
  }

  lemma SymbolsLength()
    ensures forall i :: 0 <= i < |SYMBOLS| ==> 1 <= |SYMBOLS[i]| <= 2 && (|SYMBOLS[i]| == 2 <==> i < 12)
  {
  }

  class Tokenizer {
    var remaining: string

    constructor (text: string)
      ensures remaining == text
    {
      remaining := text;
    }

    /** Tries the symbols in the order of the list. */
    method GetSymbol() returns (r: Option<string>)
      modifies this
      ensures r == SymbolAt(old(remaining))
      ensures remaining == if r.Some? then old(remaining)[|r.value|..] else old(remaining)
    {
      var i := 0;
      while i < |SYMBOLS|
        invariant 0 <= i <= |SYMBOLS| && remaining == old(remaining)
        invariant SymbolAt(remaining) == FirstSymbol(remaining, i)
      {
        var symbol := SYMBOLS[i];
        if symbol <= remaining {
          remaining := remaining[|symbol|..];
          return Some(symbol);
        }
        i := i + 1;
      }
      r := None;
    }

    /** Walks over the characters behind the opening quote. */
    method GetStringConstant() returns (r: Option<string>)
      modifies this
      ensures r.Some? <==> StringAt(old(remaining)).Some?
      ensures r.Some? ==> StringAt(old(remaining)).value.0 == r.value
      ensures remaining == if r.Some? then old(remaining)[StringAt(old(remaining)).value.1..] else old(remaining)
    {
      if |remaining| < 2 || remaining[0] != '"' {
        return None;
      }
      var escaped := false;
      var str := "";
      var i := 1;
      while i < |remaining|
        invariant 1 <= i <= |remaining| && remaining == old(remaining)
        invariant StringAt(remaining) == StringFrom(remaining[i..], escaped, str, i)
      {
        var b := remaining[i];
        assert remaining[i..][0] == b && remaining[i..][1..] == remaining[i + 1..];
        if b == '\\' {
          escaped := true;
        } else if escaped && IsEscape(b) {
          str := str + [Unescaped(b)];
          escaped := false;
        } else if b == '"' {
          remaining := remaining[i + 1..];
          return Some(str);
        } else {
          str := str + [b];
        }
        i := i + 1;
      }
      r := None;
    }

    method Next() returns (t: Token)
      modifies this
      ensures t == TokenAt(old(remaining)).0 && remaining == old(remaining)[TokenAt(old(remaining)).1..]
    {
      var s := remaining;
      if CommentLen(s) > 0 {
        remaining := s[CommentLen(s)..];
        return Comment(s[..CommentLen(s)]);
      }
      if |s| == 0 {
        return EOF;
      }
      if IsBlank(s[0]) {
        remaining := s[Span(c => IsBlank(c), s)..];
        return Whitespace;
      }
      if KeywordLen(s) > 0 {
        remaining := s[KeywordLen(s)..];
        return Keyword(Lower(s[..KeywordLen(s)]));
      }
      if s[0] == '\n' {
        remaining := s[1..];
        return Newline;
      }
      var symbol := GetSymbol();
      if symbol.Some? {
        return Symbol(symbol.value);
      }
      if IdLen(s) > 0 {
        remaining := s[IdLen(s)..];
        return Id(s[..IdLen(s)]);
      }
      var str := GetStringConstant();
      if str.Some? {
        return Text(str.value);
      }
      if NumberLen(s) > 0 {
        remaining := s[NumberLen(s)..];
        return Number(s[..NumberLen(s)]);
      }
      remaining := s[1..];
      t := Unknown(s[0]);
    }
  }

  lemma LexNext(s: string)
    ensures var (t, n) := TokenAt(s);
            Lex(s) == if t.EOF? then [] else (if t.Whitespace? then [] else [t]) + Lex(s[n..])
  {
  }

  /** The next token, and what is left to read. */
  method Pull(tokenizer: Tokenizer) returns (t: Token)
    modifies tokenizer
    ensures Lex(old(tokenizer.remaining)) ==
            if t.EOF? then [] else (if t.Whitespace? then [] else [t]) + Lex(tokenizer.remaining)
    ensures |tokenizer.remaining| + (if t.EOF? then 0 else 1) <= |old(tokenizer.remaining)|
  {
    LexNext(tokenizer.remaining);
    t := tokenizer.Next();
  }

  // ---- string constants ----

  /** Replaces every occurrence of a character. */
  function ReplaceAll(s: string, c: char, repl: string): string {
    if s == "" then "" else (if s[0] == c then repl else [s[0]]) + ReplaceAll(s[1..], c, repl)
  }

  /** Three replacements in the whole string, one after another (insertEscapesIntoString in pkg/parser/printer.go). */
  function InsertEscapes(s: string): string {
    ReplaceAll(ReplaceAll(ReplaceAll(s, '\n', ['\\', 'n']), '\t', ['\\', 't']), '"', ['\\', '"'])
  }

  function EscapeChar(c: char): string {
    if c == '\n' then ['\\', 'n'] else if c == '\t' then ['\\', 't'] else if c == '"' then ['\\', '"'] else [c]
  }

  function EscapeEach(s: string): string {
    if s == "" then "" else EscapeChar(s[0]) + EscapeEach(s[1..])
  }

  lemma {:induction false} ReplaceAppend(a: string, b: string, c: char, repl: string)
    ensures ReplaceAll(a + b, c, repl) == ReplaceAll(a, c, repl) + ReplaceAll(b, c, repl)
  {
    if a == "" {
      assert a + b == b;
    } else {
      assert (a + b)[1..] == a[1..] + b;
      ReplaceAppend(a[1..], b, c, repl);
    }
  }

  lemma ReplaceTwo(a: char, b: char, c: char, repl: string)
    ensures ReplaceAll([a, b], c, repl) == (if a == c then repl else [a]) + (if b == c then repl else [b])
    ensures ReplaceAll([a], c, repl) == if a == c then repl else [a]
  {
    assert [a, b][1..] == [b] && [b][1..] == "" && [a][1..] == "";
    assert ReplaceAll([b], c, repl) == if b == c then repl else [b];
  }

  /** The later replacements do not touch what the earlier ones have inserted. */
  lemma {:induction false} EscapesEach(s: string)
    ensures InsertEscapes(s) == EscapeEach(s)
  {
    if s != "" {
      var tail1 := ReplaceAll(s[1..], '\n', ['\\', 'n']);
      var tail2 := ReplaceAll(tail1, '\t', ['\\', 't']);
      var head1 := if s[0] == '\n' then ['\\', 'n'] else [s[0]];
      ReplaceAppend(head1, tail1, '\t', ['\\', 't']);
      var head2 := ReplaceAll(head1, '\t', ['\\', 't']);
      ReplaceTwo('\\', 'n', '\t', ['\\', 't']);
      ReplaceTwo(s[0], s[0], '\t', ['\\', 't']);
      ReplaceAppend(head2, tail2, '"', ['\\', '"']);
      ReplaceTwo('\\', 'n', '"', ['\\', '"']);
      ReplaceTwo('\\', 't', '"', ['\\', '"']);
      ReplaceTwo(s[0], s[0], '"', ['\\', '"']);
      EscapesEach(s[1..]);
    }
  }

  lemma {:induction false} ScanEscaped(v: string, rest: string, str: string, n: nat)
    requires '\\' !in v
    ensures StringFrom(EscapeEach(v) + ['"'] + rest, false, str, n) == Some((str + v, n + |EscapeEach(v)| + 1))
    decreases |v|
  {
    var s := EscapeEach(v) + ['"'] + rest;
    if v == "" {
      assert s == ['"'] + rest;
      assert str + v == str;
    } else {
      var tail := EscapeEach(v[1..]) + ['"'] + rest;
      assert s == EscapeChar(v[0]) + tail;
      ScanEscaped(v[1..], rest, str + [v[0]], n + |EscapeChar(v[0])|);
      assert str + [v[0]] + v[1..] == str + v;
      ScanChar(v[0], tail, str, n);
    }
  }

  lemma ScanChar(c: char, tail: string, str: string, n: nat)
    requires c != '\\'
    ensures StringFrom(EscapeChar(c) + tail, false, str, n) == StringFrom(tail, false, str + [c], n + |EscapeChar(c)|)
  {
    var s := EscapeChar(c) + tail;
    if |EscapeChar(c)| == 2 {
      assert s[0] == '\\' && s[1..][0] == EscapeChar(c)[1] && s[1..][1..] == tail;
      assert Unescaped(EscapeChar(c)[1]) == c;
      assert StringFrom(s, false, str, n) == StringFrom(s[1..], true, str, n + 1);
    } else {
      assert s[1..] == tail;
    }
  }

  /** Reading a string constant never yields a backslash. */
  lemma {:induction false} ScanNoBackslash(s: string, escaped: bool, str: string, n: nat)
    requires '\\' !in str && StringFrom(s, escaped, str, n).Some?
    ensures '\\' !in StringFrom(s, escaped, str, n).value.0
    decreases |s|
  {
    if s[0] == '\\' {
      ScanNoBackslash(s[1..], true, str, n + 1);
    } else if escaped && IsEscape(s[0]) {
      ScanNoBackslash(s[1..], false, str + [Unescaped(s[0])], n + 1);
    } else if s[0] != '"' {
      ScanNoBackslash(s[1..], escaped, str + [s[0]], n + 1);
    }
  }

  /** A printed string constant is read back as the same string if and only if there is no backslash in it. */
  lemma StringRoundTrip(v: string, rest: string)
    ensures StringAt(['"'] + InsertEscapes(v) + ['"'] + rest) == Some((v, |InsertEscapes(v)| + 2)) <==> '\\' !in v
  {
    var s := ['"'] + InsertEscapes(v) + ['"'] + rest;
    EscapesEach(v);
    assert s[1..] == EscapeEach(v) + ['"'] + rest;
    if '\\' !in v {
      ScanEscaped(v, rest, "", 1);
      assert "" + v == v;
    } else if StringAt(s).Some? {
      ScanNoBackslash(s[1..], false, "", 1);
    }
  }
}
