/** What the Go lexer produces, stated over `LexFrom`. */
module GoLexerProperties {
  import opened GoLexer

  /** The keyword slice holds exactly these eight words; `func`, `print` and `input` are not among them. */
  lemma KeywordTable()
    ensures forall w :: Reserved(w) <==> w in {"if", "else", "while", "for", "return", "int", "float", "void"}
    ensures !Reserved("func") && !Reserved("print") && !Reserved("input")
  {
  }

  predicate AllIn(v: string, k: Class) { forall i :: 0 <= i < |v| ==> In(v[i], k) }

  /** A byte no branch of `lex` claims. */
  predicate IsStray(c: char) {
    !IsWhitespace(c) && !IsAlnum(c) && !IsOperator(c) && !IsSymbol(c)
  }

  /** What each kind of token can hold. */
  predicate Shaped(t: Token) {
    var v := t.value;
    match t.kind
    case Identifier => |v| >= 1 && IsAlpha(v[0]) && AllIn(v, Alnum) && !Reserved(v)
    case Keyword => Reserved(v)
    case Number => |v| >= 1 && AllIn(v, Digits)
    case Operator => |v| >= 1 && AllIn(v, Operators)
    case Symbol => |v| == 1 && IsSymbol(v[0])
    case Unknown =>
      || (|v| == 1 && IsStray(v[0]))
      || (|v| == 2 && 0xC2 <= v[0] as int <= 0xC3 && 0x80 <= v[1] as int < 0xC0)
    case EOF => false
  }

  /** Every token but the last is well formed and not `EOF`; the last is the `EOF` token. */
  predicate ScanShape(ts: seq<Token>) {
    && |ts| >= 1
    && ts[|ts| - 1] == EofToken
    && forall i :: 0 <= i < |ts| - 1 ==> Shaped(ts[i])
  }

  /** Where the token that starts at `p` ends. */
  function TokenEnd(s: string, p: nat): (e: nat)
    requires p < |s|
    ensures p < e <= |s|
  {
    var c := s[p];
    if IsAlpha(c) then RunEnd(s, p, Alnum)
    else if IsDigit(c) then RunEnd(s, p, Digits)
    else if IsOperator(c) then RunEnd(s, p, Operators)
    else p + 1
  }

  lemma HeadShape(s: string, p: nat)
    requires p < |s| && IsBytes(s) && !IsWhitespace(s[p])
    ensures |LexFrom(s, p)| >= 1 && Shaped(LexFrom(s, p)[0])
    ensures LexFrom(s, p)[1..] == LexFrom(s, TokenEnd(s, p))
  {
    var c, ts := s[p], LexFrom(s, p);
    if StartsRun(c) {
      var k := if IsAlpha(c) then Alnum else if IsDigit(c) then Digits else Operators;
      var e := RunEnd(s, p, k);
      var v := s[p..e];
      assert ts == [Token(ts[0].kind, v)] + LexFrom(s, e);
      SliceAllIn(s, p, e, k);
      assert v[0] == c;
    } else {
      assert ts == [ts[0]] + LexFrom(s, p + 1);
    }
  }

  lemma SliceAllIn(s: string, p: nat, e: nat, k: Class)
    requires p <= e <= |s| && forall i :: p <= i < e ==> In(s[i], k)
    ensures AllIn(s[p..e], k)
  {
    var v := s[p..e];
    forall i | 0 <= i < |v| ensures In(v[i], k) {
      assert v[i] == s[p + i];
    }
  }

  lemma ShapeCons(t: Token, rest: seq<Token>)
    requires Shaped(t) && ScanShape(rest)
    ensures ScanShape([t] + rest)
  {
    var ts := [t] + rest;
    forall i | 1 <= i < |ts| - 1 ensures Shaped(ts[i]) {
      assert ts[i] == rest[i - 1];
    }
  }

  lemma {:induction false} LexFromShape(s: string, p: nat)
    requires p <= |s| && IsBytes(s)
    ensures ScanShape(LexFrom(s, p))
    decreases |s| - p
  {
    if p < |s| {
      if IsWhitespace(s[p]) {
        LexFromShape(s, p + 1);
      } else {
        var ts := LexFrom(s, p);
        HeadShape(s, p);
        LexFromShape(s, TokenEnd(s, p));
        ShapeCons(ts[0], ts[1..]);
        assert ts == [ts[0]] + ts[1..];
      }
    }
  }

  /**
   * `lex` always ends with exactly one `EOF` token whose text is `EOF`, and
   * every other token has the shape its kind promises.
   */
  lemma LexShape(s: string)
    requires IsBytes(s)
    ensures ScanShape(LexFrom(s, 0))
    ensures forall i :: 0 <= i < |LexFrom(s, 0)| - 1 ==> LexFrom(s, 0)[i].kind != EOF
  {
    LexFromShape(s, 0);
  }

  /** The texts of the tokens other than `EOF`, one after the other. */
  function Values(ts: seq<Token>): string {
    if ts == [] then []
    else (if ts[0].kind == EOF then [] else ts[0].value) + Values(ts[1..])
  }

  /** The input from `p` on without whitespace, every remaining byte as `lex` writes it out. */
  function Kept(s: string, p: nat): string
    requires p <= |s| && IsBytes(s)
    decreases |s| - p
  {
    if p == |s| then []
    else (if IsWhitespace(s[p]) then [] else RuneString(s[p])) + Kept(s, p + 1)
  }

  /** The input with its space, newline, tab and return bytes removed. */
  function Unspaced(s: string): string {
    if s == [] then [] else (if IsWhitespace(s[0]) then [] else [s[0]]) + Unspaced(s[1..])
  }

  predicate IsAscii(s: string) { forall i :: 0 <= i < |s| ==> s[i] as int < 128 }

  /** A run of alphanumeric or operator bytes is kept as it stands. */
  lemma {:induction false} RunKept(s: string, p: nat, e: nat, k: Class)
    requires p <= e <= |s| && IsBytes(s)
    requires forall i :: p <= i < e ==> In(s[i], k)
    ensures Kept(s, p) == s[p..e] + Kept(s, e)
    decreases e - p
  {
    if p < e {
      assert In(s[p], k);
      RunKept(s, p + 1, e, k);
      RunKeptStep(s, p, e, k);
    }
  }

  lemma RunKeptStep(s: string, p: nat, e: nat, k: Class)
    requires p < e <= |s| && IsBytes(s) && In(s[p], k)
    requires Kept(s, p + 1) == s[p + 1..e] + Kept(s, e)
    ensures Kept(s, p) == s[p..e] + Kept(s, e)
  {
    var c := s[p];
    assert RuneString(c) == [c];
    assert s[p..e] == [c] + s[p + 1..e];
    Regroup(Kept(s, p), [c], Kept(s, p + 1), s[p + 1..e], Kept(s, e), s[p..e]);
  }

  /** Proof helper: `head + (run + later)` read as `(head + run) + later` (sequence associativity). */
  lemma Regroup<T>(whole: seq<T>, head: seq<T>, tail: seq<T>, run: seq<T>, later: seq<T>, front: seq<T>)
    requires whole == head + tail && tail == run + later && front == head + run
    ensures whole == front + later
  {
  }

  /** The run class of a byte that starts a multi-byte token. */
  predicate StartsRun(c: char) { IsAlpha(c) || IsDigit(c) || IsOperator(c) }

  /** The text of the token at a non-blank `p`. */
  lemma HeadValue(s: string, p: nat)
    requires p < |s| && IsBytes(s) && !IsWhitespace(s[p])
    ensures |LexFrom(s, p)| >= 1 && LexFrom(s, p)[0].kind != EOF
    ensures LexFrom(s, p)[0].value == if StartsRun(s[p]) then s[p..TokenEnd(s, p)] else RuneString(s[p])
  {
  }

  lemma ValuesCons(t: Token, ts: seq<Token>)
    requires t.kind != EOF
    ensures Values([t] + ts) == t.value + Values(ts)
  {
    assert ([t] + ts)[1..] == ts;
  }

  lemma {:induction false} ValuesFrom(s: string, p: nat)
    requires p <= |s| && IsBytes(s)
    ensures Values(LexFrom(s, p)) == Kept(s, p)
    decreases |s| - p
  {
    if p == |s| {
      assert Values([EofToken]) == [];
    } else if IsWhitespace(s[p]) {
      ValuesFrom(s, p + 1);
    } else {
      var c, e, ts := s[p], TokenEnd(s, p), LexFrom(s, p);
      HeadShape(s, p);
      HeadValue(s, p);
      ValuesFrom(s, e);
      if StartsRun(c) {
        RunKept(s, p, e, if IsAlpha(c) then Alnum else if IsDigit(c) then Digits else Operators);
      }
      assert ts == [ts[0]] + ts[1..];
      ValuesCons(ts[0], ts[1..]);
    }
  }

  lemma {:induction false} AsciiKept(s: string, p: nat)
    requires p <= |s| && IsBytes(s) && IsAscii(s)
    ensures Kept(s, p) == Unspaced(s[p..])
    decreases |s| - p
  {
    if p < |s| {
      AsciiKept(s, p + 1);
      assert s[p..][0] == s[p] && s[p..][1..] == s[p + 1..];
    }
  }

  /**
   * Concatenating the token texts gives back the input without whitespace,
   * each byte from 0x80 up widened to the two bytes of its UTF-8 form; for
   * ASCII input, exactly the input with space, newline, tab and return removed.
   */
  lemma ValuesAreInput(s: string)
    requires IsBytes(s)
    ensures Values(LexFrom(s, 0)) == Kept(s, 0)
    ensures IsAscii(s) ==> Values(LexFrom(s, 0)) == Unspaced(s)
  {
    ValuesFrom(s, 0);
    if IsAscii(s) {
      AsciiKept(s, 0);
      assert s[0..] == s;
    }
  }

  /** `RunEnd` stops at the first byte outside the class. */
  lemma {:induction false} RunEndAt(s: string, p: nat, e: nat, k: Class)
    requires p <= e <= |s|
    requires forall i :: p <= i < e ==> In(s[i], k)
    requires e == |s| || !In(s[e], k)
    ensures RunEnd(s, p, k) == e
    decreases e - p
  {
    if p < e {
      RunEndAt(s, p + 1, e, k);
    }
  }

  /** A maximal run of operator bytes is one OPERATOR token. */
  lemma OperatorRun(s: string, p: nat, e: nat)
    requires p < e <= |s| && IsBytes(s)
    requires forall i :: p <= i < e ==> IsOperator(s[i])
    requires e == |s| || !IsOperator(s[e])
    ensures LexFrom(s, p) == [Token(Operator, s[p..e])] + LexFrom(s, e)
  {
    RunEndAt(s, p, e, Operators);
  }

  /** A maximal run of digits is one NUMBER token. */
  lemma NumberRun(s: string, p: nat, e: nat)
    requires p < e <= |s| && IsBytes(s)
    requires forall i :: p <= i < e ==> IsDigit(s[i])
    requires e == |s| || !IsDigit(s[e])
    ensures LexFrom(s, p) == [Token(Number, s[p..e])] + LexFrom(s, e)
  {
    RunEndAt(s, p, e, Digits);
  }

  /**
   * A maximal letter-started alphanumeric run is one token: KEYWORD when it
   * is one of the eight keywords, IDENTIFIER otherwise.
   */
  lemma WordRun(s: string, p: nat, e: nat)
    requires p < e <= |s| && IsBytes(s) && IsAlpha(s[p])
    requires forall i :: p <= i < e ==> IsAlnum(s[i])
    requires e == |s| || !IsAlnum(s[e])
    ensures LexFrom(s, p) == [Token(if Reserved(s[p..e]) then Keyword else Identifier, s[p..e])] + LexFrom(s, e)
  {
    RunEndAt(s, p, e, Alnum);
  }

  /** Any other byte is one UNKNOWN token and is not dropped. */
  lemma StrayByte(s: string, p: nat)
    requires p < |s| && IsBytes(s) && IsStray(s[p])
    ensures LexFrom(s, p) == [Token(Unknown, RuneString(s[p]))] + LexFrom(s, p + 1)
    ensures s[p] as int < 128 ==> LexFrom(s, p)[0].value == [s[p]]
  {
  }

  /** `x<=10;` gives one two-byte operator: IDENT x, OPERATOR <=, NUMBER 10, SYMBOL ;, EOF. */
  lemma ComparisonExample(s: string)
    requires s == "x<=10;"
    ensures LexFrom(s, 0) ==
      [Token(Identifier, "x"), Token(Operator, "<="), Token(Number, "10"), Token(Symbol, ";"), EofToken]
  {
    BoundExample(s);
    WordRun(s, 0, 1);
    assert s[0..1] == "x" && !Reserved("x");
  }

  lemma BoundExample(s: string)
    requires s == "x<=10;"
    ensures LexFrom(s, 1) == [Token(Operator, "<="), Token(Number, "10"), Token(Symbol, ";"), EofToken]
  {
    assert LexFrom(s, 6) == [EofToken];
    assert LexFrom(s, 5) == [Token(Symbol, ";"), EofToken];
    NumberRun(s, 3, 5);
    assert s[3..5] == "10";
    OperatorRun(s, 1, 3);
    assert s[1..3] == "<=";
  }

  /** `func f(a,b)`: `func` is an identifier and the comma an UNKNOWN token. */
  lemma CallExample(s: string)
    requires s == "func f(a,b)"
    ensures LexFrom(s, 0) ==
      [Token(Identifier, "func"), Token(Identifier, "f"), Token(Symbol, "("), Token(Identifier, "a"),
       Token(Unknown, ","), Token(Identifier, "b"), Token(Symbol, ")"), EofToken]
  {
    NameExample(s);
    WordRun(s, 0, 4);
    assert s[0..4] == "func" && !Reserved("func");
  }

  lemma NameExample(s: string)
    requires s == "func f(a,b)"
    ensures LexFrom(s, 4) ==
      [Token(Identifier, "f"), Token(Symbol, "("), Token(Identifier, "a"),
       Token(Unknown, ","), Token(Identifier, "b"), Token(Symbol, ")"), EofToken]
  {
    ArgumentsExample(s);
    WordRun(s, 5, 6);
    assert s[5..6] == "f" && !Reserved("f");
  }

  lemma ArgumentsExample(s: string)
    requires s == "func f(a,b)"
    ensures LexFrom(s, 6) ==
      [Token(Symbol, "("), Token(Identifier, "a"), Token(Unknown, ","), Token(Identifier, "b"), Token(Symbol, ")"), EofToken]
  {
    CommaExample(s);
    assert !Reserved("a");
    WordRun(s, 7, 8);
    assert s[7..8] == "a";
  }

  lemma CommaExample(s: string)
    requires s == "func f(a,b)"
    ensures LexFrom(s, 8) == [Token(Unknown, ","), Token(Identifier, "b"), Token(Symbol, ")"), EofToken]
  {
    assert LexFrom(s, 11) == [EofToken];
    assert LexFrom(s, 10) == [Token(Symbol, ")"), EofToken];
    assert !Reserved("b");
    WordRun(s, 9, 10);
    assert s[9..10] == "b";
    StrayByte(s, 8);
  }
}
