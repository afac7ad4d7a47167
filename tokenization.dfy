/** The lexer: raw expression text to a sequence of typed tokens
    (Tokenization.cs). Character classes are the ASCII ones. */
module Tokenization {
  import opened Results

  datatype TokenType = Number | Op | LParen | RParen | Equals

  datatype Token = Token(kind: TokenType, text: string)

  // ---------------------------------------------------------------------------
  // Character classes

  predicate IsWhiteSpace(c: char) {
    c == ' ' || '\t' <= c <= '\r'
  }

  predicate IsDigit(c: char) {
    '0' <= c <= '9'
  }

  predicate IsLetter(c: char) {
    'a' <= c <= 'z' || 'A' <= c <= 'Z'
  }

  /** The single-character operators of Tokenization.cs:46. */
  predicate IsOpChar(c: char) {
    c == '+' || c == '-' || c == '*' || c == '/' || c == '%' || c == '^' || c == '!'
  }

  /** Every character the lexer accepts; any other one is an error. */
  predicate Recognised(c: char) {
    IsWhiteSpace(c) || IsDigit(c) || c == '.' || IsLetter(c) || IsOpChar(c)
    || c == '(' || c == ')' || c == '='
  }

  function ToLower(c: char): char {
    if 'A' <= c <= 'Z' then (c as int + 32) as char else c
  }

  function Lowered(s: string): (r: string)
    ensures |r| == |s|
  {
    seq(|s|, k requires 0 <= k < |s| => ToLower(s[k]))
  }

  // ---------------------------------------------------------------------------
  // Shapes of token texts

  /** Digits and dots with at most one dot, as the number scanner accepts them. */
  predicate NumberText(s: string) {
    && |s| > 0
    && (forall k :: 0 <= k < |s| ==> IsDigit(s[k]) || s[k] == '.')
    && (forall j, k :: 0 <= j < k < |s| && s[j] == '.' ==> s[k] != '.')
  }

  ghost predicate LowerWord(s: string) {
    |s| > 0 && forall k :: 0 <= k < |s| ==> 'a' <= s[k] <= 'z'
  }

  /** The text each kind of token can carry. */
  ghost predicate WellFormed(t: Token) {
    match t.kind
    case Number => NumberText(t.text)
    case Op => (|t.text| == 1 && IsOpChar(t.text[0])) || LowerWord(t.text)
    case LParen => t.text == "("
    case RParen => t.text == ")"
    case Equals => t.text == "="
  }

  // ---------------------------------------------------------------------------
  // Scanning runs

  /** End of the digit/dot run that the inner loop of Tokenization.cs:24-30
      scans from `i`, where `dotSeen` says whether a dot was already taken. */
  function NumberEnd(s: string, i: nat, dotSeen: bool): (j: nat)
    requires i <= |s|
    ensures i <= j <= |s|
    ensures forall k :: i <= k < j ==> IsDigit(s[k]) || s[k] == '.'
    ensures dotSeen ==> forall k :: i <= k < j ==> s[k] != '.'
    ensures forall a, b :: i <= a < b < j && s[a] == '.' ==> s[b] != '.'
    ensures j < |s| ==> !IsDigit(s[j]) && (s[j] == '.' ==> dotSeen || exists k :: i <= k < j && s[k] == '.')
    decreases |s| - i
  {
    if i < |s| && IsDigit(s[i]) then NumberEnd(s, i + 1, dotSeen)
    else if i < |s| && s[i] == '.' && !dotSeen then NumberEnd(s, i + 1, true)
    else i
  }

  /** The number token that starts at `i` ends at the returned index: its text
      is a number text and it is the longest one starting there. */
  function ScanNumber(s: string, i: nat): (j: nat)
    requires i < |s| && (IsDigit(s[i]) || s[i] == '.')
    ensures i < j <= |s|
    ensures NumberText(s[i..j])
    ensures j < |s| ==> !IsDigit(s[j]) && (s[j] == '.' ==> '.' in s[i..j])
  {
    var j := NumberEnd(s, i + 1, s[i] == '.');
    NumberRunFacts(s, i, j);
    j
  }

  lemma NumberRunFacts(s: string, i: nat, j: nat)
    requires i < |s| && (IsDigit(s[i]) || s[i] == '.')
    requires j == NumberEnd(s, i + 1, s[i] == '.')
    ensures NumberText(s[i..j])
    ensures j < |s| ==> !IsDigit(s[j]) && (s[j] == '.' ==> '.' in s[i..j])
  {
    var t := s[i..j];
    NumberRunChars(s, i, j);
    NumberRunOneDot(s, i, j);
    if j < |s| && s[j] == '.' {
      if s[i] == '.' {
        assert t[0] == '.';
      } else {
        var k :| i + 1 <= k < j && s[k] == '.';
        assert t[k - i] == '.';
      }
    }
  }

  lemma NumberRunChars(s: string, i: nat, j: nat)
    requires i < |s| && (IsDigit(s[i]) || s[i] == '.')
    requires j == NumberEnd(s, i + 1, s[i] == '.')
    ensures forall k :: 0 <= k < j - i ==> IsDigit(s[i..j][k]) || s[i..j][k] == '.'
  {
    var t := s[i..j];
    forall k | 0 <= k < |t|
      ensures IsDigit(t[k]) || t[k] == '.'
    {
      assert t[k] == s[i + k];
    }
  }

  lemma NumberRunOneDot(s: string, i: nat, j: nat)
    requires i < |s| && (IsDigit(s[i]) || s[i] == '.')
    requires j == NumberEnd(s, i + 1, s[i] == '.')
    ensures forall a, b :: 0 <= a < b < j - i && s[i..j][a] == '.' ==> s[i..j][b] != '.'
  {
    var t := s[i..j];
    forall a, b | 0 <= a < b < |t| && t[a] == '.'
      ensures t[b] != '.'
    {
      assert t[a] == s[i + a] && t[b] == s[i + b];
      assert i + 1 <= i + b < j;
      if a > 0 {
        assert i + 1 <= i + a < i + b;
      }
    }
  }



  /** End of the letter run that Tokenization.cs:38 scans from `i`: every
      character before it is a letter and the one at it is not. */
  function LetterEnd(s: string, i: nat): (j: nat)
    requires i <= |s|
    ensures i <= j <= |s|
    ensures forall k :: i <= k < j ==> IsLetter(s[k])
    ensures j < |s| ==> !IsLetter(s[j])
    decreases |s| - i
  {
    if i < |s| && IsLetter(s[i]) then LetterEnd(s, i + 1) else i
  }

  // ---------------------------------------------------------------------------
  // The lexer as a function

  /** Puts `t` in front of a successful result; an error stays an error. */
  function Cons(t: Token, r: Result<seq<Token>>): Result<seq<Token>> {
    if r.Ok? then Ok([t] + r.value) else r
  }

  /** Puts `ts` in front of a successful result; an error stays an error. */
  function Prefixed(ts: seq<Token>, r: Result<seq<Token>>): Result<seq<Token>> {
    if r.Ok? then Ok(ts + r.value) else r
  }

  lemma PrefixedCons(ts: seq<Token>, t: Token, r: Result<seq<Token>>)
    ensures Prefixed(ts, Cons(t, r)) == Prefixed(ts + [t], r)
  {
    if r.Ok? {
      assert ts + ([t] + r.value) == (ts + [t]) + r.value;
    }
  }

  /** The tokens of `s[i..]`, or the first unexpected character. */
  function Lex(s: string, i: nat): Result<seq<Token>>
    requires i <= |s|
    decreases |s| - i
  {
    if i == |s| then Ok([])
    else
      var c := s[i];
      if IsWhiteSpace(c) then Lex(s, i + 1)
      else if IsDigit(c) || c == '.' then
        var j := ScanNumber(s, i);
        Cons(Token(Number, s[i..j]), Lex(s, j))
      else if IsLetter(c) then
        var j := LetterEnd(s, i + 1);
        Cons(Token(Op, Lowered(s[i..j])), Lex(s, j))
      else if IsOpChar(c) then Cons(Token(Op, [c]), Lex(s, i + 1))
      else if c == '(' then Cons(Token(LParen, "("), Lex(s, i + 1))
      else if c == ')' then Cons(Token(RParen, ")"), Lex(s, i + 1))
      else if c == '=' then Cons(Token(Equals, "="), Lex(s, i + 1))
      else Err(LexError(c, i))
  }

  // ---------------------------------------------------------------------------
  // The lexer as the source writes it

  /** Tokenization.cs:21-30: the scan of a number run that starts at `start`. */
  method ScanNumberRun(input: string, start: nat) returns (i: nat)
    requires start < |input| && (IsDigit(input[start]) || input[start] == '.')
    ensures i == ScanNumber(input, start)
  {
    var dotSeen := input[start] == '.';
    i := start + 1;
    while i < |input|
      invariant start < i <= |input|
      invariant NumberEnd(input, i, dotSeen) == NumberEnd(input, start + 1, input[start] == '.')
      decreases |input| - i
    {
      var d := input[i];
      if IsDigit(d) {
        i := i + 1;
      } else if d == '.' && !dotSeen {
        dotSeen := true;
        i := i + 1;
      } else {
        break;
      }
    }
  }

  /** Tokenization.cs:36-38: the scan of a letter run that starts at `start`. */
  method ScanLetterRun(input: string, start: nat) returns (i: nat)
    requires start < |input| && IsLetter(input[start])
    ensures i == LetterEnd(input, start + 1)
  {
    i := start + 1;
    while i < |input| && IsLetter(input[i])
      invariant start < i <= |input|
      invariant LetterEnd(input, i) == LetterEnd(input, start + 1)
      decreases |input| - i
    {
      i := i + 1;
    }
  }

  /** Tokenization.cs:11-60: walks the input with an index, appending tokens. */
  method Tokenize(input: string) returns (r: Result<seq<Token>>)
    ensures r == Lex(input, 0)
  {
    var tokens: seq<Token> := [];
    var i := 0;
    if Lex(input, 0).Ok? {
      assert tokens + Lex(input, 0).value == Lex(input, 0).value;
    }
    while i < |input|
      invariant 0 <= i <= |input|
      invariant Lex(input, 0) == Prefixed(tokens, Lex(input, i))
      decreases |input| - i
    {
      var c := input[i];
      if IsWhiteSpace(c) {
        i := i + 1;
        continue;
      }
      if IsDigit(c) || c == '.' {
        var start := i;
        i := ScanNumberRun(input, start);
        PrefixedCons(tokens, Token(Number, input[start..i]), Lex(input, i));
        tokens := tokens + [Token(Number, input[start..i])];
        continue;
      }
      if IsLetter(c) {
        var start := i;
        i := ScanLetterRun(input, start);
        PrefixedCons(tokens, Token(Op, Lowered(input[start..i])), Lex(input, i));
        tokens := tokens + [Token(Op, Lowered(input[start..i]))];
        continue;
      }
      if IsOpChar(c) {
        PrefixedCons(tokens, Token(Op, [c]), Lex(input, i + 1));
        tokens := tokens + [Token(Op, [c])];
        i := i + 1;
      } else if c == '(' {
        PrefixedCons(tokens, Token(LParen, "("), Lex(input, i + 1));
        tokens := tokens + [Token(LParen, "(")];
        i := i + 1;
      } else if c == ')' {
        PrefixedCons(tokens, Token(RParen, ")"), Lex(input, i + 1));
        tokens := tokens + [Token(RParen, ")")];
        i := i + 1;
      } else if c == '=' {
        PrefixedCons(tokens, Token(Equals, "="), Lex(input, i + 1));
        tokens := tokens + [Token(Equals, "=")];
        i := i + 1;
      } else {
        return Err(LexError(c, i));
      }
    }
    assert tokens + [] == tokens;
    r := Ok(tokens);
  }

  // ---------------------------------------------------------------------------
  // Properties of the lexer

  /** `r` is the outcome of lexing `s` from position i exactly when it fails
      just on an unrecognised character, and then names the first one. */
  predicate ReportsFirstUnrecognised(s: string, i: nat, r: Result<seq<Token>>)
    requires i <= |s|
  {
    && (r.Ok? <==> forall k :: i <= k < |s| ==> Recognised(s[k]))
    && (r.Err? ==>
      var e := r.error;
      && e.LexError?
      && i <= e.pos < |s|
      && e.ch == s[e.pos]
      && !Recognised(s[e.pos])
      && forall k :: i <= k < e.pos ==> Recognised(s[k]))
  }

  /** Lexing fails exactly when some character is not recognised, and then it
      reports the first such character and its position. */
  lemma {:induction false} LexFailsOnFirstUnrecognised(s: string, i: nat)
    requires i <= |s|
    ensures ReportsFirstUnrecognised(s, i, Lex(s, i))
    decreases |s| - i
  {
    if i < |s| && Recognised(s[i]) {
      var j := LexNext(s, i);
      LexFailsOnFirstUnrecognised(s, j);
      SkipRecognised(s, i, j, Lex(s, i), Lex(s, j));
    }
  }

  /** After a recognised character, lexing goes on at the end of its token
      (or after the white space), and fails exactly when the rest fails. */
  lemma LexNext(s: string, i: nat) returns (j: nat)
    requires i < |s| && Recognised(s[i])
    ensures i < j <= |s|
    ensures forall k :: i <= k < j ==> Recognised(s[k])
    ensures Lex(s, i).Ok? == Lex(s, j).Ok?
    ensures Lex(s, i).Err? ==> Lex(s, i) == Lex(s, j)
  {
    var c := s[i];
    if IsDigit(c) || c == '.' {
      j := ScanNumber(s, i);
    } else if IsLetter(c) {
      j := LetterEnd(s, i + 1);
    } else {
      j := i + 1;
    }
  }

  /** Recognised characters in front of a position change neither whether
      lexing fails nor which character it reports. */
  lemma SkipRecognised(s: string, i: nat, j: nat, ri: Result<seq<Token>>, rj: Result<seq<Token>>)
    requires i <= j <= |s|
    requires forall k :: i <= k < j ==> Recognised(s[k])
    requires ri.Ok? == rj.Ok? && (ri.Err? ==> ri == rj)
    requires ReportsFirstUnrecognised(s, j, rj)
    ensures ReportsFirstUnrecognised(s, i, ri)
  {
  }

  /** Every token the lexer produces carries a text of its kind's shape. */
  lemma {:induction false} LexTokensWellFormed(s: string, i: nat)
    requires i <= |s|
    ensures Lex(s, i).Ok? ==> forall t :: t in Lex(s, i).value ==> WellFormed(t)
    decreases |s| - i
  {
    if i < |s| {
      var c := s[i];
      if IsWhiteSpace(c) || IsOpChar(c) || c == '(' || c == ')' || c == '=' {
        LexTokensWellFormed(s, i + 1);
      } else if IsDigit(c) || c == '.' {
        LexTokensWellFormed(s, ScanNumber(s, i));
      } else if IsLetter(c) {
        var j := LetterEnd(s, i + 1);
        LexTokensWellFormed(s, j);
        var w := Lowered(s[i..j]);
        forall k | 0 <= k < |w| ensures 'a' <= w[k] <= 'z' {
          assert IsLetter(s[i + k]);
        }
      }
    }
  }

  /** The input with whitespace removed and letters lowercased. */
  function Normalised(s: string): string {
    if s == [] then []
    else (if IsWhiteSpace(s[0]) then [] else [ToLower(s[0])]) + Normalised(s[1..])
  }

  /** All token texts, concatenated in order. */
  function Texts(ts: seq<Token>): string {
    if ts == [] then [] else ts[0].text + Texts(ts[1..])
  }

  lemma {:induction false} NormalisedConcat(a: string, b: string)
    ensures Normalised(a + b) == Normalised(a) + Normalised(b)
  {
    if a != [] {
      assert (a + b)[0] == a[0];
      assert (a + b)[1..] == a[1..] + b;
      NormalisedConcat(a[1..], b);
    } else {
      assert a + b == b;
    }
  }

  lemma {:induction false} NormalisedOfRun(w: string)
    requires forall k :: 0 <= k < |w| ==> !IsWhiteSpace(w[k])
    ensures Normalised(w) == Lowered(w)
  {
    if w != [] {
      NormalisedOfRun(w[1..]);
      assert Lowered(w) == [ToLower(w[0])] + Lowered(w[1..]);
    }
  }

  /** Skipping `s[i..j]`, a run with no whitespace, emits its lowercased text. */
  lemma CoverRun(s: string, i: nat, j: nat)
    requires i <= j <= |s|
    requires forall k :: i <= k < j ==> !IsWhiteSpace(s[k])
    ensures Normalised(s[i..]) == Lowered(s[i..j]) + Normalised(s[j..])
  {
    assert s[i..] == s[i..j] + s[j..];
    NormalisedConcat(s[i..j], s[j..]);
    NormalisedOfRun(s[i..j]);
  }

  /** The tokens cover the input: concatenating their texts gives the input
      without its whitespace and with its letters lowercased. */
  lemma {:induction false} LexCoversInput(s: string, i: nat)
    requires i <= |s|
    ensures Lex(s, i).Ok? ==> Texts(Lex(s, i).value) == Normalised(s[i..])
    decreases |s| - i
  {
    if i < |s| {
      var c := s[i];
      if IsWhiteSpace(c) {
        LexCoversInput(s, i + 1);
        assert s[i..][1..] == s[i + 1..];
      } else if IsDigit(c) || c == '.' {
        var j := ScanNumber(s, i);
        LexCoversInput(s, j);
        CoverRun(s, i, j);
        assert Lowered(s[i..j]) == s[i..j];
        var rest := Lex(s, j);
        if rest.Ok? {
          assert Lex(s, i).value == [Token(Number, s[i..j])] + rest.value;
          assert ([Token(Number, s[i..j])] + rest.value)[1..] == rest.value;
        }
      } else if IsLetter(c) {
        var j := LetterEnd(s, i + 1);
        LexCoversInput(s, j);
        CoverRun(s, i, j);
        var rest := Lex(s, j);
        if rest.Ok? {
          assert Lex(s, i).value == [Token(Op, Lowered(s[i..j]))] + rest.value;
          assert ([Token(Op, Lowered(s[i..j]))] + rest.value)[1..] == rest.value;
        }
      } else if IsOpChar(c) || c == '(' || c == ')' || c == '=' {
        LexCoversInput(s, i + 1);
        CoverRun(s, i, i + 1);
        assert Lowered(s[i..i + 1]) == [c];
        var rest := Lex(s, i + 1);
        if rest.Ok? {
          assert Lex(s, i).value[1..] == rest.value;
        }
      }
    }
  }
}
