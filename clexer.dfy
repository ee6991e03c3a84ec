/**
 * The byte scanner of the C pipeline (src/c_core/lexer.c). `LexFrom` is the
 * meaning of one scan from a position; `TokenBuffer.Lex` is the scanner loop
 * over the static token array, proved to compute it.
 */
module CLexer {
  import opened CTokens
  import opened Wrappers
  import opened CStrings

  const MAX_TOKENS: nat := 1024
  /** Longest value a token can hold: one byte of `char value[100]` is the NUL. */
  const MAX_VALUE: nat := MAX_TOKEN_SIZE - 1

  const KEYWORDS: seq<string> :=
    ["if", "else", "while", "for", "return", "int", "float", "void", "func", "print", "input"]

  const FROM_C_PREFIX: string := "#import_from_c"
  const IMPORT_PREFIX: string := "#import"

  /** A diagnostic: `Lexer Error [Line l, Column c]: Unexpected character 'ch'`. */
  datatype LexError = LexError(line: int, column: int, ch: char)

  datatype LexOut = LexOut(tokens: seq<Token>, errors: seq<LexError>)

  // <ctype.h> in the C locale
  predicate IsSpace(c: char) {
    c == ' ' || c == '\t' || c == '\n' || c == '\U{000B}' || c == '\U{000C}' || c == '\r'
  }
  predicate IsAlpha(c: char) { 'a' <= c <= 'z' || 'A' <= c <= 'Z' }
  predicate IsDigit(c: char) { '0' <= c <= '9' }
  predicate IsAlnum(c: char) { IsAlpha(c) || IsDigit(c) }

  // strchr("+-*/=!<>", c) != NULL
  predicate IsOperatorChar(c: char) {
    c == '+' || c == '-' || c == '*' || c == '/' || c == '=' || c == '!' || c == '<' || c == '>'
  }

  // strchr("(){};,", c) != NULL
  predicate IsSymbolChar(c: char) {
    c == '(' || c == ')' || c == '{' || c == '}' || c == ';' || c == ','
  }

  predicate Reserved(w: string) { w in KEYWORDS }

  /** `isKeyword`: a linear search of the keyword table. */
  method IsKeyword(str: string) returns (b: bool)
    ensures b <==> Reserved(str)
  {
    var i := 0;
    while i < |KEYWORDS|
      invariant 0 <= i <= |KEYWORDS|
      invariant forall k :: 0 <= k < i ==> KEYWORDS[k] != str
    {
      if str == KEYWORDS[i] {
        return true;
      }
      i := i + 1;
    }
    return false;
  }

  /** The keyword table holds exactly these eleven words; `break` and `loop` are not among them. */
  lemma KeywordTable()
    ensures forall w :: Reserved(w) <==>
      w in {"if", "else", "while", "for", "return", "int", "float", "void", "func", "print", "input"}
    ensures !Reserved("break") && !Reserved("loop")
  {
  }

  /** `strncmp(s + p, w, |w|) == 0` */
  predicate StartsAt(s: string, p: nat, w: string) {
    p + |w| <= |s| && s[p..p + |w|] == w
  }

  predicate HasFrom(s: string, i: nat, d: char) {
    exists j :: i <= j < |s| && s[j] == d
  }

  /**
   * An import directive at `i` has its opening delimiter somewhere after the
   * prefix: `<` after `#import_from_c`, `"` after any other `#import`.
   * Without it the skip loop stops on the NUL and the `p++` after it steps
   * past the end of the text (lexer.c:51-52, 64-65).
   */
  predicate ClosedAt(s: string, i: nat) {
    && (StartsAt(s, i, FROM_C_PREFIX) ==> HasFrom(s, i + |FROM_C_PREFIX|, '<'))
    && (StartsAt(s, i, IMPORT_PREFIX) && !StartsAt(s, i, FROM_C_PREFIX) ==> HasFrom(s, i + |IMPORT_PREFIX|, '"'))
  }

  /**
   * What the scanner needs of its input: every position the scan from `p`
   * reaches, starting a directive or not, is `ClosedAt`. Prefix text the scan
   * passes over inside an import value or a skipped gap is not examined.
   */
  predicate ClosedFrom(s: string, p: nat)
    requires p <= |s|
    decreases |s| - p
  {
    p == |s| || (ClosedAt(s, p) && ClosedFrom(s, Next(s, p)))
  }

  /** The requirement for a whole scan, from the start of the text. */
  predicate ScanClosed(s: string) { ClosedFrom(s, 0) }

  /** `while (*p && *p != d) p++;` */
  function FindFrom(s: string, i: nat, d: char): (j: nat)
    requires i <= |s|
    ensures i <= j <= |s|
    ensures forall k :: i <= k < j ==> s[k] != d
    ensures HasFrom(s, i, d) ==> j < |s| && s[j] == d
    decreases |s| - i
  {
    if i == |s| || s[i] == d then i else FindFrom(s, i + 1, d)
  }

  /** The character classes the copying loops run over. */
  datatype Run = AlnumRun | DigitRun | Until(stop: char)

  predicate InRun(c: char, k: Run) {
    match k
    case AlnumRun => IsAlnum(c)
    case DigitRun => IsDigit(c)
    case Until(stop) => c != stop
  }

  /** Where a copying loop that may take at most `budget` more characters stops. */
  function RunEnd(s: string, p: nat, k: Run, budget: nat): (e: nat)
    requires p <= |s|
    ensures p <= e <= |s| && e - p <= budget
    ensures forall i :: p <= i < e ==> InRun(s[i], k)
    ensures e == |s| || e - p == budget || !InRun(s[e], k)
    decreases budget
  {
    if p == |s| || budget == 0 || !InRun(s[p], k) then p else RunEnd(s, p + 1, k, budget - 1)
  }

  /**
   * What both directive branches do after the prefix: skip to the first
   * `open` from `a`, step over it, take the text up to `close` (at most 99
   * characters), and consume `close` when it is next.
   */
  function ScanDirective(s: string, a: nat, open: char, close: char, kind: TokenType): (r: (Token, nat))
    requires a <= |s| && HasFrom(s, a, open)
    ensures a < r.1 <= |s|
  {
    var q := FindFrom(s, a, open);
    var e := RunEnd(s, q + 1, Until(close), MAX_VALUE);
    (Token(kind, s[q + 1..e]), if e < |s| && s[e] == close then e + 1 else e)
  }

  /**
   * An import directive at `p`: `#import_from_c` is tried first and takes
   * its value between `<` and `>`; any other `#import` between two `"`.
   */
  function ScanImport(s: string, p: nat): (r: (Token, nat))
    requires p < |s| && ClosedAt(s, p)
    requires StartsAt(s, p, FROM_C_PREFIX) || StartsAt(s, p, IMPORT_PREFIX)
    ensures p < r.1 <= |s|
  {
    if StartsAt(s, p, FROM_C_PREFIX) then ScanDirective(s, p + |FROM_C_PREFIX|, '<', '>', ImportFromC)
    else ScanDirective(s, p + |IMPORT_PREFIX|, '"', '"', Import)
  }

  /** Where the scan goes on after the step at `p`; the counters play no part. */
  function Next(s: string, p: nat): (n: nat)
    requires p < |s| && ClosedAt(s, p)
    ensures p < n <= |s|
  {
    if IsSpace(s[p]) then p + 1
    else if StartsAt(s, p, FROM_C_PREFIX) || StartsAt(s, p, IMPORT_PREFIX) then ScanImport(s, p).1
    else if IsAlpha(s[p]) then RunEnd(s, p, AlnumRun, MAX_VALUE)
    else if IsDigit(s[p]) then RunEnd(s, p, DigitRun, MAX_VALUE)
    else p + 1
  }

  /** What one pass of the scanner loop body does at `p`. */
  datatype Step = Step(token: Option<Token>, error: Option<LexError>, next: nat, line: int, column: int)

  function ScanStep(s: string, p: nat, line: int, column: int): (r: Step)
    requires p < |s| && ClosedAt(s, p)
    ensures p < r.next <= |s| && r.next == Next(s, p)
    ensures !(r.token.Some? && r.error.Some?)
  {
    var c := s[p];
    if IsSpace(c) then
      if c == '\n' then Step(None, None, p + 1, line + 1, 1) else Step(None, None, p + 1, line, column + 1)
    else if StartsAt(s, p, FROM_C_PREFIX) || StartsAt(s, p, IMPORT_PREFIX) then
      var (t, next) := ScanImport(s, p);
      Step(Some(t), None, next, line, column)
    else if IsAlpha(c) then
      var e := RunEnd(s, p, AlnumRun, MAX_VALUE);
      var v := s[p..e];
      Step(Some(Token(if Reserved(v) then Keyword else Identifier, v)), None, e, line, column + (e - p))
    else if IsDigit(c) then
      var e := RunEnd(s, p, DigitRun, MAX_VALUE);
      Step(Some(Token(Number, s[p..e])), None, e, line, column + (e - p))
    else if IsOperatorChar(c) then
      Step(Some(Token(Operator, [c])), None, p + 1, line, column + 1)
    else if IsSymbolChar(c) then
      Step(Some(Token(Symbol, [c])), None, p + 1, line, column + 1)
    else
      Step(None, Some(LexError(line, column, c)), p + 1, line, column + 1)
  }

  function Emitted<T>(x: Option<T>): seq<T> { if x.Some? then [x.value] else [] }

  /**
   * The tokens and diagnostics of the scan that starts at `p` with the given
   * line and column counters.
   */
  function LexFrom(s: string, p: nat, line: int, column: int): (r: LexOut)
    requires p <= |s| && ClosedFrom(s, p)
    ensures 1 <= |r.tokens| <= |s| - p + 1
    decreases |s| - p
  {
    if p == |s| then LexOut([EofToken], [])
    else
      var st := ScanStep(s, p, line, column);
      var rest := LexFrom(s, st.next, st.line, st.column);
      LexOut(Emitted(st.token) + rest.tokens, Emitted(st.error) + rest.errors)
  }

  /** The whole scan: `lex(input, &count)` starts at line 1, column 1. */
  function LexSpec(s: string): (r: LexOut)
    requires ScanClosed(s)
    ensures 1 <= |r.tokens| <= |s| + 1
  {
    LexFrom(s, 0, 1, 1)
  }

  /** `lex` returns the same static array on every call: its 1024 slots are this object's. */
  class TokenBuffer {
    const slots: array<Token>

    constructor ()
      ensures slots.Length == MAX_TOKENS
    {
      slots := new Token[MAX_TOKENS];
    }

    /** `tokens[count++] = ...` */
    method Put(count: nat, token: Token)
      requires count < slots.Length
      modifies slots
      ensures slots[..count + 1] == old(slots[..count]) + [token]
      ensures forall i :: count < i < slots.Length ==> slots[i] == old(slots[i])
    {
      slots[count] := token;
    }

    /** One pass of the scanner loop: scan at `p0`, then store what it gave. */
    method Consume(input: string, p0: nat, line0: int, column0: int, count0: nat, errors0: seq<LexError>)
      returns (p: nat, line: int, column: int, count: nat, errors: seq<LexError>)
      requires p0 < |input| && ClosedFrom(input, p0)
      requires count0 + |LexFrom(input, p0, line0, column0).tokens| <= slots.Length
      modifies slots
      ensures p0 < p <= |input| && count0 <= count && ClosedFrom(input, p)
      ensures count + |LexFrom(input, p, line, column).tokens| == count0 + |LexFrom(input, p0, line0, column0).tokens|
      ensures slots[..count] + LexFrom(input, p, line, column).tokens ==
        old(slots[..count0]) + LexFrom(input, p0, line0, column0).tokens
      ensures errors + LexFrom(input, p, line, column).errors == errors0 + LexFrom(input, p0, line0, column0).errors
      ensures forall i :: count <= i < slots.Length ==> slots[i] == old(slots[i])
    {
      var token, error;
      LexFromStep(input, p0, line0, column0);
      token, error, p, line, column := ScanOne(input, p0, line0, column0);
      ghost var rest := LexFrom(input, p, line, column);
      count, errors := count0, errors0;
      if error.Some? {
        errors := errors + [error.value];
      }
      assert errors == errors0 + Emitted(error);
      if token.Some? {
        Put(count, token.value);
        count := count + 1;
      }
      assert slots[..count] == old(slots[..count0]) + Emitted(token);
      Advance(old(slots[..count0]), token, rest.tokens, old(slots[..count0]) + LexFrom(input, p0, line0, column0).tokens);
      Advance(errors0, error, rest.errors, errors0 + LexFrom(input, p0, line0, column0).errors);
    }

    /**
     * `lex(input, &count)`: afterwards the first `count` slots hold the scan's
     * tokens, EOF sentinel included; the slots after them are untouched.
     * The C code has no bound check, hence the requirement on the count.
     */
    method Lex(input: string) returns (count: nat, errors: seq<LexError>)
      requires slots.Length == MAX_TOKENS
      requires IsCString(input) && ScanClosed(input)
      requires |LexSpec(input).tokens| <= MAX_TOKENS
      modifies slots
      ensures count == |LexSpec(input).tokens| && slots[..count] == LexSpec(input).tokens
      ensures errors == LexSpec(input).errors
      ensures forall i :: count <= i < slots.Length ==> slots[i] == old(slots[i])
    {
      ghost var spec := LexSpec(input);
      count := 0;
      errors := [];
      var p, line, column := 0, 1, 1;
      ghost var rest := spec;
      while p < |input|
        invariant p <= |input| && ClosedFrom(input, p) && rest == LexFrom(input, p, line, column)
        invariant count + |rest.tokens| == |spec.tokens|
        invariant slots[..count] + rest.tokens == spec.tokens
        invariant errors + rest.errors == spec.errors
        invariant forall i :: count <= i < slots.Length ==> slots[i] == old(slots[i])
        decreases |input| - p
      {
        p, line, column, count, errors := Consume(input, p, line, column, count, errors);
        rest := LexFrom(input, p, line, column);
      }
      assert rest == LexOut([EofToken], []);
      slots[count] := EofToken;
      count := count + 1;
    }
  }

  lemma LexFromStep(s: string, p: nat, line: int, column: int)
    requires p < |s| && ClosedFrom(s, p)
    ensures var st := ScanStep(s, p, line, column); var rest := LexFrom(s, st.next, st.line, st.column);
      LexFrom(s, p, line, column) == LexOut(Emitted(st.token) + rest.tokens, Emitted(st.error) + rest.errors)
  {
  }

  /** A step that emits nothing leaves the rest of the scan as it is. */
  lemma SilentStep(s: string, p: nat, line: int, column: int)
    requires p < |s| && ClosedFrom(s, p)
    requires ScanStep(s, p, line, column).token == None && ScanStep(s, p, line, column).error == None
    ensures var st := ScanStep(s, p, line, column);
      LexFrom(s, p, line, column) == LexFrom(s, st.next, st.line, st.column)
  {
    var st := ScanStep(s, p, line, column);
    LexFromStep(s, p, line, column);
    var rest := LexFrom(s, st.next, st.line, st.column);
    assert Emitted(st.token) + rest.tokens == rest.tokens;
    assert Emitted(st.error) + rest.errors == rest.errors;
  }

  /** Moving what one step emitted from the rest of the scan to what is done. */
  lemma Advance<T>(done: seq<T>, x: Option<T>, rest: seq<T>, all: seq<T>)
    requires done + (Emitted(x) + rest) == all
    ensures (done + Emitted(x)) + rest == all
  {
    assert done + (Emitted(x) + rest) == (done + Emitted(x)) + rest;
  }

  /**
   * One pass of the scanner loop body at `p0`. It gives at most one token or
   * one diagnostic, and where the scan goes on from.
   */
  method ScanOne(s: string, p0: nat, line0: int, column0: int)
    returns (token: Option<Token>, error: Option<LexError>, p: nat, line: int, column: int)
    requires p0 < |s| && ClosedAt(s, p0)
    ensures Step(token, error, p, line, column) == ScanStep(s, p0, line0, column0)
  {
    p, line, column := p0, line0, column0;
    token, error := None, None;
    var c := s[p];
    if IsSpace(c) {
      if c == '\n' {
        line, column := line + 1, 1;
      } else {
        column := column + 1;
      }
      p := p + 1;
      return;
    }
    if StartsAt(s, p, FROM_C_PREFIX) || StartsAt(s, p, IMPORT_PREFIX) {
      var t;
      t, p := LexImport(s, p);
      token := Some(t);
    } else if IsAlpha(c) {
      var value;
      value, p := CopyRun(s, p, AlnumRun);
      column := column + |value|;
      var reserved := IsKeyword(value);
      token := Some(Token(if reserved then Keyword else Identifier, value));
    } else if IsDigit(c) {
      var value;
      value, p := CopyRun(s, p, DigitRun);
      column := column + |value|;
      token := Some(Token(Number, value));
    } else if IsOperatorChar(c) {
      token := Some(Token(Operator, [c]));
      p, column := p + 1, column + 1;
    } else if IsSymbolChar(c) {
      token := Some(Token(Symbol, [c]));
      p, column := p + 1, column + 1;
    } else {
      error := Some(LexError(line, column, c));
      p, column := p + 1, column + 1;
    }
  }

  /** The import branch of the scanner loop (lexer.c:49-75). */
  method LexImport(s: string, p0: nat) returns (token: Token, p: nat)
    requires p0 < |s| && ClosedAt(s, p0)
    requires StartsAt(s, p0, FROM_C_PREFIX) || StartsAt(s, p0, IMPORT_PREFIX)
    ensures (token, p) == ScanImport(s, p0)
  {
    if StartsAt(s, p0, FROM_C_PREFIX) {
      token, p := LexDirective(s, p0 + |FROM_C_PREFIX|, '<', '>', ImportFromC);
    } else {
      token, p := LexDirective(s, p0 + |IMPORT_PREFIX|, '"', '"', Import);
    }
  }

  /** One directive branch after its prefix (lexer.c:51-60, 64-73). */
  method LexDirective(s: string, a: nat, open: char, close: char, kind: TokenType) returns (token: Token, p: nat)
    requires a <= |s| && HasFrom(s, a, open)
    ensures (token, p) == ScanDirective(s, a, open, close, kind)
  {
    p := SkipTo(s, a, open);
    p := p + 1;
    var value;
    value, p := CopyRun(s, p, Until(close));
    if p < |s| && s[p] == close {
      p := p + 1;
    }
    token := Token(kind, value);
  }

  /** The skip loop `while (*p && *p != d) p++;`. */
  method SkipTo(s: string, i: nat, d: char) returns (p: nat)
    requires i <= |s|
    ensures p == FindFrom(s, i, d)
  {
    p := i;
    while p < |s| && s[p] != d
      invariant i <= p <= |s| && FindFrom(s, p, d) == FindFrom(s, i, d)
      decreases |s| - p
    {
      p := p + 1;
    }
  }

  /**
   * The copying loop `while (*p && <class> && len < MAX_TOKEN_SIZE - 1) value[len++] = *p++;`.
   */
  method CopyRun(s: string, start: nat, k: Run) returns (value: string, p: nat)
    requires start <= |s|
    ensures p == RunEnd(s, start, k, MAX_VALUE) && value == s[start..p]
  {
    p := start;
    value := "";
    while p < |s| && InRun(s[p], k) && |value| < MAX_VALUE
      invariant start <= p <= |s| && value == s[start..p] && |value| <= MAX_VALUE
      invariant RunEnd(s, p, k, MAX_VALUE - |value|) == RunEnd(s, start, k, MAX_VALUE)
      decreases |s| - p
    {
      value := value + [s[p]];
      p := p + 1;
    }
  }
}
