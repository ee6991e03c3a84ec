/**
 * The lexer of the Go runtime (src/go_runtime/main.go): an index scan over
 * the bytes of the input that appends tokens to a slice. Unlike the C lexer
 * it reads whole runs of operator characters, keeps unknown bytes as tokens
 * and knows only eight keywords.
 */
module GoLexer {

  datatype TokenType = Identifier | Number | Operator | Keyword | Symbol | EOF | Unknown

  datatype Token = Token(kind: TokenType, value: string)

  /** The token appended after the scan. */
  const EofToken: Token := Token(EOF, "EOF")

  /** A Go string is a sequence of bytes: each character here stands for one byte. */
  predicate IsBytes(s: string) { forall i :: 0 <= i < |s| ==> s[i] as int < 256 }

  /**
   * The character classes of `lexer`. Each is disjoint from those tested
   * after it, so the order of its branches decides nothing.
   */
  predicate IsWhitespace(c: char)
    ensures IsWhitespace(c) ==> !IsAlnum(c) && !IsOperator(c) && !IsSymbol(c)
  {
    c == ' ' || c == '\n' || c == '\t' || c == '\r'
  }

  predicate IsAlpha(c: char)
    ensures IsAlpha(c) ==> !IsDigit(c) && !IsOperator(c) && !IsSymbol(c)
  {
    'a' <= c <= 'z' || 'A' <= c <= 'Z'
  }

  predicate IsDigit(c: char)
    ensures IsDigit(c) ==> !IsOperator(c) && !IsSymbol(c)
  {
    '0' <= c <= '9'
  }

  predicate IsAlnum(c: char)
    ensures IsAlnum(c) ==> !IsOperator(c) && !IsSymbol(c)
  {
    IsAlpha(c) || IsDigit(c)
  }

  predicate IsOperator(c: char)
    ensures IsOperator(c) ==> !IsSymbol(c)
  {
    c == '+' || c == '-' || c == '*' || c == '/' || c == '=' || c == '<' || c == '>' || c == '!'
  }

  /** No comma here, unlike the C lexer. */
  predicate IsSymbol(c: char)
    ensures IsSymbol(c) ==> c != ','
  {
    c == '(' || c == ')' || c == '{' || c == '}' || c == ';'
  }

  const KEYWORDS: seq<string> := ["if", "else", "while", "for", "return", "int", "float", "void"]

  predicate Reserved(w: string) { w in KEYWORDS }

  /** `isKeyword`: a range loop over the keyword slice. */
  method IsKeyword(value: string) returns (b: bool)
    ensures b <==> Reserved(value)
  {
    for i := 0 to |KEYWORDS|
      invariant forall k :: 0 <= k < i ==> KEYWORDS[k] != value
    {
      if value == KEYWORDS[i] {
        return true;
      }
    }
    return false;
  }

  /**
   * `string(input[p])`: Go reads the byte as the code point of the same value
   * and encodes that in UTF-8, so a byte from 0x80 up becomes two bytes:
   * 0xC0 plus its top two bits, then 0x80 plus its low six bits.
   */
  function RuneString(c: char): (r: string)
    requires c as int < 256
    ensures IsBytes(r) && 1 <= |r| <= 2
    ensures c as int < 128 <==> r == [c]
  {
    if c as int < 0x80 then [c]
    else if c as int < 0xC0 then [0xC2 as char, c]
    else [0xC3 as char, (c as int - 0x40) as char]
  }

  /** The character classes the inner loops run over. */
  datatype Class = Alnum | Digits | Operators

  predicate In(c: char, k: Class) {
    match k
    case Alnum => IsAlnum(c)
    case Digits => IsDigit(c)
    case Operators => IsOperator(c)
  }

  /** Where `for p < inputLen && isX(input[p]) { p++ }` stops. */
  function RunEnd(s: string, p: nat, k: Class): (e: nat)
    requires p <= |s|
    ensures p <= e <= |s|
    ensures forall i :: p <= i < e ==> In(s[i], k)
    ensures e == |s| || !In(s[e], k)
    decreases |s| - p
  {
    if p < |s| && In(s[p], k) then RunEnd(s, p + 1, k) else p
  }

  /** An alphanumeric run is a keyword or an identifier. */
  function Word(v: string): Token {
    Token(if Reserved(v) then Keyword else Identifier, v)
  }

  /** The tokens `lex` appends from index `p` on, `EOF` included. */
  function LexFrom(s: string, p: nat): seq<Token>
    requires p <= |s| && IsBytes(s)
    decreases |s| - p
  {
    if p == |s| then [EofToken]
    else
      var c := s[p];
      if IsWhitespace(c) then LexFrom(s, p + 1)
      else if IsAlpha(c) then
        var e := RunEnd(s, p, Alnum); [Word(s[p..e])] + LexFrom(s, e)
      else if IsDigit(c) then
        var e := RunEnd(s, p, Digits); [Token(Number, s[p..e])] + LexFrom(s, e)
      else if IsOperator(c) then
        var e := RunEnd(s, p, Operators); [Token(Operator, s[p..e])] + LexFrom(s, e)
      else if IsSymbol(c) then [Token(Symbol, [c])] + LexFrom(s, p + 1)
      else [Token(Unknown, RuneString(c))] + LexFrom(s, p + 1)
  }

  /** An inner loop of `lex`. */
  method ScanRun(input: string, start: nat, k: Class) returns (p: nat)
    requires start <= |input|
    ensures p == RunEnd(input, start, k)
  {
    p := start;
    while p < |input| && In(input[p], k)
      invariant start <= p <= |input|
      invariant RunEnd(input, start, k) == RunEnd(input, p, k)
      decreases |input| - p
    {
      p := p + 1;
    }
  }

  /** One pass of the loop of `lex` that appends a token. */
  method ScanToken(input: string, p0: nat) returns (token: Token, p: nat)
    requires p0 < |input| && IsBytes(input) && !IsWhitespace(input[p0])
    ensures p0 < p <= |input|
    ensures LexFrom(input, p0) == [token] + LexFrom(input, p)
  {
    var c := input[p0];
    if IsAlpha(c) {
      p := ScanRun(input, p0, Alnum);
      var value := input[p0..p];
      var keyword := IsKeyword(value);
      token := Token(if keyword then Keyword else Identifier, value);
    } else if IsDigit(c) {
      p := ScanRun(input, p0, Digits);
      token := Token(Number, input[p0..p]);
    } else if IsOperator(c) {
      p := ScanRun(input, p0, Operators);
      token := Token(Operator, input[p0..p]);
    } else if IsSymbol(c) {
      token := Token(Symbol, [c]);
      p := p0 + 1;
    } else {
      token := Token(Unknown, RuneString(c));
      p := p0 + 1;
    }
  }

  /** `lex`. */
  method Lex(input: string) returns (tokens: seq<Token>)
    requires IsBytes(input)
    ensures tokens == LexFrom(input, 0)
  {
    tokens := [];
    var p := 0;
    while p < |input|
      invariant p <= |input|
      invariant LexFrom(input, 0) == tokens + LexFrom(input, p)
      decreases |input| - p
    {
      if IsWhitespace(input[p]) {
        p := p + 1;
        continue;
      }
      var token, next := ScanToken(input, p);
      assert tokens + ([token] + LexFrom(input, next)) == (tokens + [token]) + LexFrom(input, next);
      tokens := tokens + [token];
      p := next;
    }
    tokens := tokens + [EofToken];
  }
}
