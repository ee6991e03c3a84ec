/**
 * The older C lexer (src/lexer.c, token types in src/include/lexer.h). It
 * knows identifiers and `+`; it skips whitespace and writes an `EOF` token for
 * every other character. It returns only the array, sized by the input
 * length, and appends no closing sentinel.
 */
module LegacyLexer {
  import opened Wrappers

  datatype TokenType =
    | Identifier | Number | String | Plus | Minus | Open | Write | CFile | DFile
    | ErrorHandl | LogHandl | Gui | Get | Post | Put | Delete | Func | If | Else
    | Loop | Try | Except | EOF

  /** `create_token` copies the text with `strdup`: the token owns its value. */
  datatype Token = Token(kind: TokenType, value: string)

  /** `char buffer[128]`: an identifier is at most 127 characters before its NUL. */
  const BUFFER_SIZE: nat := 128

  // <ctype.h> in the C locale
  predicate IsAlpha(c: char) { 'a' <= c <= 'z' || 'A' <= c <= 'Z' }
  predicate IsAlnum(c: char) { IsAlpha(c) || '0' <= c <= '9' }
  predicate IsSpace(c: char) {
    c == ' ' || c == '\t' || c == '\n' || c == '\U{000B}' || c == '\U{000C}' || c == '\r'
  }

  /** A character the identifier loop copies. */
  predicate IsWordChar(c: char) { IsAlnum(c) || c == '_' }

  /** Where `while (isalnum(source[i]) || source[i] == '_')` stops; the NUL stops it at the end. */
  function WordEnd(s: string, i: nat): (e: nat)
    requires i <= |s|
    ensures i <= e <= |s|
    ensures forall k :: i <= k < e ==> IsWordChar(s[k])
    ensures e == |s| || !IsWordChar(s[e])
    decreases |s| - i
  {
    if i < |s| && IsWordChar(s[i]) then WordEnd(s, i + 1) else i
  }

  /** No identifier overflows the copy buffer. */
  predicate WordsFit(s: string) {
    forall i :: 0 <= i < |s| && IsAlpha(s[i]) ==> WordEnd(s, i) - i < BUFFER_SIZE
  }

  /** The tokens `lexer` writes from index `i` on. */
  function LexFrom(s: string, i: nat): seq<Token>
    requires i <= |s|
    decreases |s| - i
  {
    if i == |s| then []
    else if IsAlpha(s[i]) then
      var e := WordEnd(s, i); [Token(Identifier, s[i..e])] + LexFrom(s, e)
    else if s[i] == '+' then [Token(Plus, "+")] + LexFrom(s, i + 1)
    else if IsSpace(s[i]) then LexFrom(s, i + 1)
    else [Token(EOF, "EOF")] + LexFrom(s, i + 1)
  }

  /** Every token takes at least one character. */
  lemma {:induction false} LexFromCount(s: string, i: nat)
    requires i <= |s|
    ensures |LexFrom(s, i)| <= |s| - i
    decreases |s| - i
  {
    if i < |s| {
      if IsAlpha(s[i]) {
        LexFromCount(s, WordEnd(s, i));
      } else {
        LexFromCount(s, i + 1);
      }
    }
  }

  /** The identifier branch: copy the run into `buffer` and NUL-terminate it. */
  method CopyWord(source: string, start: nat) returns (value: string, i: nat)
    requires start < |source| && IsAlpha(source[start]) && WordsFit(source)
    ensures i == WordEnd(source, start) && value == source[start..i]
  {
    var buffer := new char[BUFFER_SIZE];
    var j := 0;
    i := start;
    while i < |source| && IsWordChar(source[i])
      invariant start <= i <= |source| && j == i - start
      invariant WordEnd(source, start) == WordEnd(source, i)
      invariant buffer[..j] == source[start..i]
      decreases |source| - i
    {
      ghost var copied := buffer[..j];
      buffer[j] := source[i];
      assert buffer[..j + 1] == copied + [source[i]];
      assert source[start..i + 1] == source[start..i] + [source[i]];
      j := j + 1;
      i := i + 1;
    }
    buffer[j] := '\0';
    value := buffer[..j];
  }

  /** One pass of the `for` body: the token it writes, if any, and the next index. */
  method ScanOne(source: string, i0: nat) returns (token: Option<Token>, i: nat)
    requires i0 < |source| && WordsFit(source)
    ensures i0 < i <= |source|
    ensures LexFrom(source, i0) == (if token.Some? then [token.value] else []) + LexFrom(source, i)
  {
    if IsAlpha(source[i0]) {
      var value;
      value, i := CopyWord(source, i0);
      token := Some(Token(Identifier, value));
    } else if source[i0] == '+' {
      token, i := Some(Token(Plus, "+")), i0 + 1;
    } else if IsSpace(source[i0]) {
      token, i := None, i0 + 1;
    } else {
      token, i := Some(Token(EOF, "EOF")), i0 + 1;
    }
  }

  /**
   * `lexer`: the tokens occupy the first `count` slots of a fresh array of
   * `strlen(source)` slots; the caller is not told `count`.
   */
  method Lexer(source: string) returns (tokens: array<Token>, count: nat)
    requires WordsFit(source)
    ensures fresh(tokens) && tokens.Length == |source|
    ensures count <= tokens.Length && tokens[..count] == LexFrom(source, 0)
  {
    var length := |source|;
    tokens := new Token[length];
    count := 0;
    var i := 0;
    while i < length
      invariant i <= length && count <= i
      invariant tokens[..count] + LexFrom(source, i) == LexFrom(source, 0)
      decreases length - i
    {
      var token;
      token, i := ScanOne(source, i);
      ghost var step := if token.Some? then [token.value] else [];
      ghost var done := tokens[..count];
      count := Store(tokens, count, token);
      assert tokens[..count] == done + step;
      Regroup(done, step, LexFrom(source, i));
    }
  }

  /** `tokens[index++] = token` when the pass produced one. */
  method Store(tokens: array<Token>, count0: nat, token: Option<Token>) returns (count: nat)
    requires count0 < tokens.Length
    modifies tokens
    ensures count == count0 + (if token.Some? then 1 else 0)
    ensures tokens[..count] == old(tokens[..count0]) + (if token.Some? then [token.value] else [])
  {
    count := count0;
    if token.Some? {
      tokens[count] := token.value;
      count := count + 1;
      assert tokens[..count] == old(tokens[..count0]) + [token.value];
    }
  }

  lemma Regroup(done: seq<Token>, step: seq<Token>, rest: seq<Token>)
    ensures (done + step) + rest == done + (step + rest)
  {
  }
}
