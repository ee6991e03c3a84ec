/** What the C scanner promises about every input (src/c_core/lexer.c). */
module CLexerProperties {
  import opened CTokens
  import opened Wrappers
  import opened CLexer

  /** The shape each kind of token has when the scanner makes it. */
  predicate TokenShape(t: Token) {
    var v := t.value;
    match t.kind
    case Identifier => 1 <= |v| <= MAX_VALUE && IsAlpha(v[0]) && AllIn(v, AlnumRun) && !Reserved(v)
    case Keyword => 1 <= |v| <= MAX_VALUE && IsAlpha(v[0]) && AllIn(v, AlnumRun) && Reserved(v)
    case Number => 1 <= |v| <= MAX_VALUE && AllIn(v, DigitRun)
    case Operator => |v| == 1 && IsOperatorChar(v[0])
    case Symbol => |v| == 1 && IsSymbolChar(v[0])
    case Import => |v| <= MAX_VALUE && AllIn(v, Until('"'))
    case ImportFromC => |v| <= MAX_VALUE && AllIn(v, Until('>'))
    case _ => false
  }

  predicate AllIn(v: string, k: Run) { forall i :: 0 <= i < |v| ==> InRun(v[i], k) }

  lemma StepShape(s: string, p: nat, line: int, column: int)
    requires p < |s| && ClosedAt(s, p)
    ensures var st := ScanStep(s, p, line, column); st.token.Some? ==> TokenShape(st.token.value)
  {
    var c := s[p];
    if IsSpace(c) {
    } else if StartsAt(s, p, FROM_C_PREFIX) || StartsAt(s, p, IMPORT_PREFIX) {
      ImportShape(s, p);
    } else if IsAlpha(c) {
      RunShape(s, p, AlnumRun);
    } else if IsDigit(c) {
      RunShape(s, p, DigitRun);
    }
  }

  lemma RunShape(s: string, p: nat, k: Run)
    requires p < |s| && InRun(s[p], k)
    ensures var e := RunEnd(s, p, k, MAX_VALUE);
      1 <= |s[p..e]| <= MAX_VALUE && s[p..e][0] == s[p] && AllIn(s[p..e], k)
  {
    var e := RunEnd(s, p, k, MAX_VALUE);
    assert forall i :: 0 <= i < e - p ==> s[p..e][i] == s[p + i];
  }

  lemma ImportShape(s: string, p: nat)
    requires p < |s| && ClosedAt(s, p)
    requires StartsAt(s, p, FROM_C_PREFIX) || StartsAt(s, p, IMPORT_PREFIX)
    ensures TokenShape(ScanImport(s, p).0)
  {
    var fromC := StartsAt(s, p, FROM_C_PREFIX);
    var open := if fromC then '<' else '"';
    var q := FindFrom(s, p + (if fromC then |FROM_C_PREFIX| else |IMPORT_PREFIX|), open);
    var k := Until(if fromC then '>' else '"');
    var e := RunEnd(s, q + 1, k, MAX_VALUE);
    var v := s[q + 1..e];
    assert ScanImport(s, p).0.value == v;
    assert forall i :: 0 <= i < |v| ==> v[i] == s[q + 1 + i];
  }

  /**
   * Every token but the last has its kind's shape (so no value is longer than
   * 99 characters), and the last one, and only the last one, is the EOF sentinel.
   */
  lemma {:induction false} LexFromShape(s: string, p: nat, line: int, column: int)
    requires p <= |s| && ClosedFrom(s, p)
    ensures var ts := LexFrom(s, p, line, column).tokens;
      && |ts| >= 1 && ts[|ts| - 1] == EofToken
      && (forall i :: 0 <= i < |ts| - 1 ==> TokenShape(ts[i]) && ts[i].kind != EOF)
    decreases |s| - p
  {
    if p < |s| {
      var st := ScanStep(s, p, line, column);
      StepShape(s, p, line, column);
      LexFromShape(s, st.next, st.line, st.column);
    }
  }

  lemma LexShape(s: string)
    requires ScanClosed(s)
    ensures var ts := LexSpec(s).tokens;
      && |ts| >= 1 && ts[|ts| - 1] == EofToken
      && (forall i :: 0 <= i < |ts| - 1 ==> TokenShape(ts[i]) && ts[i].kind != EOF && |ts[i].value| <= MAX_VALUE)
  {
    LexFromShape(s, 0, 1, 1);
  }

  /** `==` is two single-character operator tokens, not one. */
  lemma DoubleEquals()
    ensures ScanClosed("==")
    ensures LexSpec("==").tokens == [Token(Operator, "="), Token(Operator, "="), EofToken]
  {
    NoImportsClosed("==", 0);
  }

  /** A copying loop over a maximal run of at most `budget` characters stops at its end. */
  lemma {:induction false} RunEndIs(s: string, p: nat, e: nat, k: Run, budget: nat)
    requires p <= e <= |s| && e - p <= budget
    requires forall i :: p <= i < e ==> InRun(s[i], k)
    requires e == |s| || e - p == budget || !InRun(s[e], k)
    ensures RunEnd(s, p, k, budget) == e
    decreases e - p
  {
    if p < e {
      RunEndIs(s, p + 1, e, k, budget - 1);
    }
  }

  /**
   * A maximal letter-started alphanumeric run of at most 99 characters is one
   * token: a keyword exactly when the table lists it, otherwise an
   * identifier. The scan goes on at the run's end, the column moved by its
   * length, and nothing is reported for it.
   */
  lemma WordRun(s: string, p: nat, e: nat, line: int, column: int)
    requires p < e <= |s| && e - p <= MAX_VALUE && ClosedFrom(s, p)
    requires IsAlpha(s[p]) && forall i :: p <= i < e ==> IsAlnum(s[i])
    requires e == |s| || !IsAlnum(s[e])
    ensures ClosedFrom(s, e)
    ensures var v := s[p..e]; var rest := LexFrom(s, e, line, column + (e - p));
      LexFrom(s, p, line, column) ==
        LexOut([Token(if Reserved(v) then Keyword else Identifier, v)] + rest.tokens, rest.errors)
  {
    WordStep(s, p, e, line, column);
    var v := s[p..e];
    EmitOne(s, p, line, column, Token(if Reserved(v) then Keyword else Identifier, v), e, column + (e - p));
  }

  /** The scanner step at the start of such a word. */
  lemma WordStep(s: string, p: nat, e: nat, line: int, column: int)
    requires p < e <= |s| && e - p <= MAX_VALUE && ClosedAt(s, p)
    requires IsAlpha(s[p]) && forall i :: p <= i < e ==> IsAlnum(s[i])
    requires e == |s| || !IsAlnum(s[e])
    ensures var v := s[p..e];
      ScanStep(s, p, line, column) ==
        Step(Some(Token(if Reserved(v) then Keyword else Identifier, v)), None, e, line, column + (e - p))
  {
    RunEndIs(s, p, e, AlnumRun, MAX_VALUE);
    NotDirective(s, p);
    assert !IsSpace(s[p]);
  }

  /** The same for a maximal digit run: one Number token holding the run. */
  lemma NumberRun(s: string, p: nat, e: nat, line: int, column: int)
    requires p < e <= |s| && e - p <= MAX_VALUE && ClosedFrom(s, p)
    requires forall i :: p <= i < e ==> IsDigit(s[i])
    requires e == |s| || !IsDigit(s[e])
    ensures ClosedFrom(s, e)
    ensures var rest := LexFrom(s, e, line, column + (e - p));
      LexFrom(s, p, line, column) == LexOut([Token(Number, s[p..e])] + rest.tokens, rest.errors)
  {
    DigitStep(s, p, e, line, column);
    EmitOne(s, p, line, column, Token(Number, s[p..e]), e, column + (e - p));
  }

  /** The scanner step at the start of such a digit run. */
  lemma DigitStep(s: string, p: nat, e: nat, line: int, column: int)
    requires p < e <= |s| && e - p <= MAX_VALUE && ClosedAt(s, p)
    requires forall i :: p <= i < e ==> IsDigit(s[i])
    requires e == |s| || !IsDigit(s[e])
    ensures ScanStep(s, p, line, column) == Step(Some(Token(Number, s[p..e])), None, e, line, column + (e - p))
  {
    RunEndIs(s, p, e, DigitRun, MAX_VALUE);
    NotDirective(s, p);
    assert !IsSpace(s[p]) && !IsAlpha(s[p]);
  }

  /** A step that emits one token and no diagnostic puts that token in front of the rest of the scan. */
  lemma EmitOne(s: string, p: nat, line: int, column: int, t: Token, e: nat, column': int)
    requires p < |s| && ClosedFrom(s, p)
    requires ScanStep(s, p, line, column) == Step(Some(t), None, e, line, column')
    ensures e <= |s| && ClosedFrom(s, e)
    ensures var rest := LexFrom(s, e, line, column');
      LexFrom(s, p, line, column) == LexOut([t] + rest.tokens, rest.errors)
  {
    LexFromStep(s, p, line, column);
  }

  /** Both directive prefixes start with `#`, so a letter or digit never starts one. */
  lemma NotDirective(s: string, p: nat)
    requires p < |s| && (IsAlpha(s[p]) || IsDigit(s[p]))
    ensures !StartsAt(s, p, FROM_C_PREFIX) && !StartsAt(s, p, IMPORT_PREFIX)
  {
  }

  /**
   * An alphanumeric run longer than 99 characters is cut after 99: the first
   * token holds exactly the first 99 characters, and more tokens follow.
   */
  lemma LongRunSplits(s: string)
    requires |s| > MAX_VALUE && IsAlpha(s[0]) && AllIn(s, AlnumRun)
    ensures ScanClosed(s)
    ensures |LexSpec(s).tokens| >= 3 && LexSpec(s).tokens[0].value == s[..MAX_VALUE]
  {
    assert NoImports(s) by {
      forall i | 0 <= i < |s| ensures !StartsAt(s, i, IMPORT_PREFIX) {
        assert !InRun(IMPORT_PREFIX[0], AlnumRun);
      }
    }
    NoImportsClosed(s, 0);
    var e := RunEnd(s, 0, AlnumRun, MAX_VALUE);
    RunEndFull(s, 0, AlnumRun, MAX_VALUE);
    var st := ScanStep(s, 0, 1, 1);
    assert st.next == MAX_VALUE;
    var rest := LexFrom(s, st.next, st.line, st.column);
    assert st.next < |s|;
    var st2 := ScanStep(s, st.next, st.line, st.column);
    assert st2.token.Some? by { assert IsAlnum(s[st.next]); }
    LexFromShape(s, st2.next, st2.line, st2.column);
    LexFromStep(s, st.next, st.line, st.column);
    LexFromStep(s, 0, 1, 1);
  }

  /** A run over characters that all belong to the class stops only at the budget or the end. */
  lemma {:induction false} RunEndFull(s: string, p: nat, k: Run, budget: nat)
    requires p <= |s| && forall i :: p <= i < |s| ==> InRun(s[i], k)
    ensures RunEnd(s, p, k, budget) == if |s| - p < budget then |s| else p + budget
    decreases budget
  {
    if p < |s| && budget > 0 {
      RunEndFull(s, p + 1, k, budget - 1);
    }
  }

  /**
   * `#import_from_c` is matched first: after the prefix the scanner skips to
   * the first `<`, takes the text up to `>` and consumes the `>`.
   */
  lemma ImportFromCDirective(gap: string, v: string, post: string)
    requires '<' !in gap && '>' !in v && |v| <= MAX_VALUE
    ensures ClosedAt(FROM_C_PREFIX + gap + "<" + v + ">" + post, 0)
    ensures var s := FROM_C_PREFIX + gap + "<" + v + ">" + post;
      ScanImport(s, 0) == (Token(ImportFromC, v), |FROM_C_PREFIX| + |gap| + |v| + 2)
  {
    var s := FROM_C_PREFIX + gap + "<" + v + ">" + post;
    PrefixAt(FROM_C_PREFIX, gap, "<", v, ">", post);
    DirectiveParts(FROM_C_PREFIX, gap, '<', v, '>', post, ImportFromC);
  }

  /** Any other `#import` skips to the first `"`, takes the text up to the next `"` and consumes it. */
  lemma ImportDirective(gap: string, v: string, post: string)
    requires '"' !in gap && '"' !in v && |v| <= MAX_VALUE
    requires !StartsAt(IMPORT_PREFIX + gap + "\"" + v + "\"" + post, 0, FROM_C_PREFIX)
    ensures ClosedAt(IMPORT_PREFIX + gap + "\"" + v + "\"" + post, 0)
    ensures var s := IMPORT_PREFIX + gap + "\"" + v + "\"" + post;
      ScanImport(s, 0) == (Token(Import, v), |IMPORT_PREFIX| + |gap| + |v| + 2)
  {
    var s := IMPORT_PREFIX + gap + "\"" + v + "\"" + post;
    PrefixAt(IMPORT_PREFIX, gap, "\"", v, "\"", post);
    DirectiveParts(IMPORT_PREFIX, gap, '"', v, '"', post, Import);
  }

  /**
   * Behind both directive lemmas: after a prefix `w`, a gap free of `open`,
   * then `open`, a value free of `close` and `close`, the directive scan
   * takes exactly the value and stops just after `close`.
   */
  lemma DirectiveParts(w: string, gap: string, open: char, v: string, close: char, post: string, kind: TokenType)
    requires open !in gap && close !in v && |v| <= MAX_VALUE
    ensures var s := w + gap + [open] + v + [close] + post;
      HasFrom(s, |w|, open) && ScanDirective(s, |w|, open, close, kind) == (Token(kind, v), |w| + |gap| + |v| + 2)
  {
    var s := w + gap + [open] + v + [close] + post;
    var a, q := |w|, |w| + |gap|;
    assert s[a..q] == gap by { assert s[..q] == w + gap; }
    Middle(w + gap + [open], v, [close], post);
    ScanDirectiveAt(s, a, |gap|, |v|, open, close, kind);
  }

  /** The directive scan over positions: the first `open` at `a + g`, the first `close` `n` characters later. */
  lemma ScanDirectiveAt(s: string, a: nat, g: nat, n: nat, open: char, close: char, kind: TokenType)
    requires a + g + n + 1 < |s| && n <= MAX_VALUE
    requires s[a + g] == open && forall k :: a <= k < a + g ==> s[k] != open
    requires s[a + g + 1 + n] == close && forall k :: a + g + 1 <= k < a + g + 1 + n ==> s[k] != close
    ensures HasFrom(s, a, open)
    ensures ScanDirective(s, a, open, close, kind) == (Token(kind, s[a + g + 1..a + g + 1 + n]), a + g + n + 2)
  {
    FindFromAt(s, a, g, open);
    RunEndAt(s, a + g + 1, n, close);
  }

  /**
   * A text that is one `#import_from_c` directive lexes as its ImportFromC
   * token and the sentinel, whatever the value holds: prefix text inside it
   * is copied, not scanned as a directive.
   */
  lemma LoneFromC(gap: string, v: string)
    requires '<' !in gap && '>' !in v && |v| <= MAX_VALUE
    ensures var s := FROM_C_PREFIX + gap + "<" + v + ">";
      ScanClosed(s) && LexSpec(s).tokens == [Token(ImportFromC, v), EofToken]
  {
    var s := FROM_C_PREFIX + gap + "<" + v + ">";
    assert s == FROM_C_PREFIX + gap + "<" + v + ">" + "";
    ImportFromCDirective(gap, v, "");
    PrefixAt(FROM_C_PREFIX, gap, "<", v, ">", "");
    assert !IsSpace(s[0]) by { assert s[0] == FROM_C_PREFIX[0]; }
    assert Next(s, 0) == |s|;
    LexFromStep(s, 0, 1, 1);
  }

  /** The same for a text that is one `#import` directive. */
  lemma LoneImport(gap: string, v: string)
    requires '"' !in gap && '"' !in v && |v| <= MAX_VALUE
    requires !StartsAt(IMPORT_PREFIX + gap + "\"" + v + "\"", 0, FROM_C_PREFIX)
    ensures var s := IMPORT_PREFIX + gap + "\"" + v + "\"";
      ScanClosed(s) && LexSpec(s).tokens == [Token(Import, v), EofToken]
  {
    var s := IMPORT_PREFIX + gap + "\"" + v + "\"";
    assert s == IMPORT_PREFIX + gap + "\"" + v + "\"" + "";
    ImportDirective(gap, v, "");
    PrefixAt(IMPORT_PREFIX, gap, "\"", v, "\"", "");
    assert !IsSpace(s[0]) by { assert s[0] == IMPORT_PREFIX[0]; }
    assert Next(s, 0) == |s|;
    LexFromStep(s, 0, 1, 1);
  }

  /** `#import_from_c <#import>` is one ImportFromC token with value `#import`. */
  lemma FromCHoldingPrefix()
    ensures var s := FROM_C_PREFIX + " " + "<" + IMPORT_PREFIX + ">";
      ScanClosed(s) && LexSpec(s).tokens == [Token(ImportFromC, IMPORT_PREFIX), EofToken]
  {
    assert '>' !in IMPORT_PREFIX;
    LoneFromC(" ", IMPORT_PREFIX);
  }

  /** `#import "a#import_from_c"` is one Import token with value `a#import_from_c`. */
  lemma ImportHoldingPrefix()
    ensures var s := IMPORT_PREFIX + " " + "\"" + ("a" + FROM_C_PREFIX) + "\"";
      ScanClosed(s) && LexSpec(s).tokens == [Token(Import, "a" + FROM_C_PREFIX), EofToken]
  {
    var t := IMPORT_PREFIX + " " + "\"" + ("a" + FROM_C_PREFIX) + "\"";
    assert !StartsAt(t, 0, FROM_C_PREFIX) by { assert t[7] == ' ' != FROM_C_PREFIX[7]; }
    assert '"' !in "a" + FROM_C_PREFIX;
    LoneImport(" ", "a" + FROM_C_PREFIX);
  }

  /** A directive text starts with its prefix. */
  /** Proof helper: the second part of a concatenation, read back by position. */
  lemma Middle(a: string, v: string, b: string, c: string)
    ensures (a + v + b + c)[|a|..|a| + |v|] == v
  {
    assert (a + v + b + c)[..|a| + |v|] == a + v;
  }

  lemma PrefixAt(w: string, gap: string, open: string, v: string, close: string, post: string)
    ensures (w + gap + open + v + close + post)[..|w|] == w
  {
  }

  lemma {:induction false} FindFromAt(s: string, i: nat, n: nat, d: char)
    requires i + n < |s| && s[i + n] == d && forall k :: i <= k < i + n ==> s[k] != d
    ensures FindFrom(s, i, d) == i + n
    decreases n
  {
    if n > 0 {
      FindFromAt(s, i + 1, n - 1, d);
    }
  }

  lemma {:induction false} RunEndAt(s: string, p: nat, n: nat, stop: char)
    requires p + n < |s| && s[p + n] == stop && n <= MAX_VALUE
    requires forall k :: p <= k < p + n ==> s[k] != stop
    ensures RunEnd(s, p, Until(stop), MAX_VALUE) == p + n
  {
    RunEndBudget(s, p, n, stop, MAX_VALUE);
  }

  lemma {:induction false} RunEndBudget(s: string, p: nat, n: nat, stop: char, budget: nat)
    requires p + n < |s| && s[p + n] == stop && n <= budget
    requires forall k :: p <= k < p + n ==> s[k] != stop
    ensures RunEnd(s, p, Until(stop), budget) == p + n
    decreases n
  {
    if n > 0 {
      RunEndBudget(s, p + 1, n - 1, stop, budget - 1);
    }
  }

  /** No `#import` directive anywhere in the text (nor, therefore, `#import_from_c`). */
  predicate NoImports(s: string) {
    forall i :: 0 <= i < |s| ==> !StartsAt(s, i, IMPORT_PREFIX)
  }

  lemma FromCIsImport(s: string, p: nat)
    requires StartsAt(s, p, FROM_C_PREFIX)
    ensures StartsAt(s, p, IMPORT_PREFIX)
  {
    assert s[p..p + |IMPORT_PREFIX|] == s[p..p + |FROM_C_PREFIX|][..|IMPORT_PREFIX|];
  }

  lemma {:induction false} NoImportsClosed(s: string, p: nat)
    requires NoImports(s) && p <= |s|
    ensures ClosedFrom(s, p)
    decreases |s| - p
  {
    if p < |s| {
      if StartsAt(s, p, FROM_C_PREFIX) {
        FromCIsImport(s, p);
      }
      NoImportsClosed(s, Next(s, p));
    }
  }

  /** The line of position `p`, counting from 1: one more than the newlines before it. */
  function Line(s: string, p: nat): int
    requires p <= |s|
  {
    if p == 0 then 1 else Line(s, p - 1) + (if s[p - 1] == '\n' then 1 else 0)
  }

  /** The column of position `p`, counting from 1 after the last newline before it. */
  function Column(s: string, p: nat): int
    requires p <= |s|
  {
    if p == 0 then 1 else if s[p - 1] == '\n' then 1 else Column(s, p - 1) + 1
  }

  /** Characters that end up in some token's text. */
  predicate Kept(c: char) { IsAlnum(c) || IsOperatorChar(c) || IsSymbolChar(c) }

  lemma KeptNotBlank(c: char)
    requires Kept(c)
    ensures !IsSpace(c)
  {
  }

  /** Characters the scanner reports and drops. */
  predicate IsStray(c: char) { !IsSpace(c) && !Kept(c) }

  function KeptFrom(s: string, p: nat): string
    requires p <= |s|
    decreases |s| - p
  {
    if p == |s| then [] else (if Kept(s[p]) then [s[p]] else []) + KeptFrom(s, p + 1)
  }

  /** One diagnostic per stray character, at that character's line and column. */
  function StraysFrom(s: string, p: nat): seq<LexError>
    requires p <= |s|
    decreases |s| - p
  {
    if p == |s| then []
    else (if IsStray(s[p]) then [LexError(Line(s, p), Column(s, p), s[p])] else []) + StraysFrom(s, p + 1)
  }

  /** All token texts, one after the other. */
  function Texts(ts: seq<Token>): string {
    if ts == [] then [] else ts[0].value + Texts(ts[1..])
  }

  /** Proof helper: `Texts` of a list with a token in front (sequence associativity). */
  lemma TextsCons(t: Token, ts: seq<Token>)
    ensures Texts([t] + ts) == t.value + Texts(ts)
  {
    assert ([t] + ts)[1..] == ts;
  }

  /** Every character in `[p, e)` is kept and none is a newline. */
  predicate PlainRun(s: string, p: nat, e: nat)
    requires p <= e <= |s|
  {
    forall i :: p <= i < e ==> Kept(s[i]) && s[i] != '\n'
  }

  lemma RunFacts(s: string, p: nat, e: nat)
    requires p <= e <= |s| && PlainRun(s, p, e)
    ensures KeptFrom(s, p) == s[p..e] + KeptFrom(s, e)
    ensures StraysFrom(s, p) == StraysFrom(s, e)
    ensures Line(s, e) == Line(s, p) && Column(s, e) == Column(s, p) + (e - p)
  {
    RunKeptText(s, p, e);
    RunNoStrays(s, p, e);
    RunSameLine(s, p, e);
  }

  lemma {:induction false} RunKeptText(s: string, p: nat, e: nat)
    requires p <= e <= |s| && PlainRun(s, p, e)
    ensures KeptFrom(s, p) == s[p..e] + KeptFrom(s, e)
    decreases e - p
  {
    if p < e {
      assert PlainRun(s, p + 1, e);
      RunKeptText(s, p + 1, e);
      assert KeptFrom(s, p) == [s[p]] + KeptFrom(s, p + 1) by { assert Kept(s[p]); }
      assert s[p..e] == [s[p]] + s[p + 1..e];
    } else {
      assert s[p..e] == [];
    }
  }

  lemma {:induction false} RunNoStrays(s: string, p: nat, e: nat)
    requires p <= e <= |s| && PlainRun(s, p, e)
    ensures StraysFrom(s, p) == StraysFrom(s, e)
    decreases e - p
  {
    if p < e {
      assert PlainRun(s, p + 1, e);
      RunNoStrays(s, p + 1, e);
      assert !IsStray(s[p]) by { assert Kept(s[p]); }
      assert StraysFrom(s, p) == [] + StraysFrom(s, p + 1);
    }
  }

  lemma {:induction false} RunSameLine(s: string, p: nat, e: nat)
    requires p <= e <= |s| && PlainRun(s, p, e)
    ensures Line(s, e) == Line(s, p) && Column(s, e) == Column(s, p) + (e - p)
    decreases e - p
  {
    if p < e {
      assert PlainRun(s, p, e - 1);
      RunSameLine(s, p, e - 1);
      assert s[e - 1] != '\n';
    }
  }

  /** What one scanner step does with a character other than a blank, outside directives. */
  lemma StepFacts(s: string, p: nat, line: int, column: int)
    requires p < |s| && !IsSpace(s[p])
    requires !StartsAt(s, p, FROM_C_PREFIX) && !StartsAt(s, p, IMPORT_PREFIX)
    ensures var st := ScanStep(s, p, line, column);
      st.line == line && st.column == column + (st.next - p) &&
      if Kept(s[p]) then
        PlainRun(s, p, st.next) && st.error == None &&
        st.token.Some? && st.token.value.value == s[p..st.next]
      else
        st.next == p + 1 && st.token == None && st.error == Some(LexError(line, column, s[p]))
  {
    var c := s[p];
    var st := ScanStep(s, p, line, column);
    if IsAlpha(c) {
      assert st.next == RunEnd(s, p, AlnumRun, MAX_VALUE);
    } else if IsDigit(c) {
      assert st.next == RunEnd(s, p, DigitRun, MAX_VALUE);
    } else if Kept(c) {
      assert s[p..p + 1] == [c];
    }
  }

  /** The coverage property of the scan from `p`, with the counters at `p`'s position. */
  predicate Covered(s: string, p: nat)
    requires p <= |s| && ClosedFrom(s, p)
  {
    var r := LexFrom(s, p, Line(s, p), Column(s, p));
    Texts(r.tokens) == KeptFrom(s, p) + "EOF" && r.errors == StraysFrom(s, p)
  }

  lemma BlankSkipped(s: string, p: nat)
    requires p < |s| && ClosedFrom(s, p) && IsSpace(s[p])
    ensures LexFrom(s, p, Line(s, p), Column(s, p)) == LexFrom(s, p + 1, Line(s, p + 1), Column(s, p + 1))
  {
    var line, column := Line(s, p), Column(s, p);
    var st := ScanStep(s, p, line, column);
    assert st.token == None && st.error == None && st.next == p + 1;
    assert st.line == Line(s, p + 1) && st.column == Column(s, p + 1);
    SilentStep(s, p, line, column);
  }

  lemma CoverBlank(s: string, p: nat)
    requires p < |s| && ClosedFrom(s, p) && IsSpace(s[p])
    requires Covered(s, p + 1)
    ensures Covered(s, p)
  {
    BlankSkipped(s, p);
    BlankDropped(s, p);
  }

  lemma BlankDropped(s: string, p: nat)
    requires p < |s| && IsSpace(s[p])
    ensures KeptFrom(s, p) == KeptFrom(s, p + 1) && StraysFrom(s, p) == StraysFrom(s, p + 1)
  {
    assert !Kept(s[p]) && !IsStray(s[p]);
  }

  lemma CoverStray(s: string, p: nat)
    requires p < |s| && ClosedFrom(s, p) && IsStray(s[p])
    requires !StartsAt(s, p, FROM_C_PREFIX) && !StartsAt(s, p, IMPORT_PREFIX)
    requires Covered(s, p + 1)
    ensures Covered(s, p)
  {
    var line, column := Line(s, p), Column(s, p);
    StepFacts(s, p, line, column);
    var rest := LexFrom(s, p + 1, Line(s, p + 1), Column(s, p + 1));
    assert Line(s, p + 1) == line && Column(s, p + 1) == column + 1;
    assert LexFrom(s, p, line, column).tokens == rest.tokens;
    assert KeptFrom(s, p) == KeptFrom(s, p + 1);
  }

  /**
   * A kept character starts a token whose text is the run it begins: the
   * scan from `p` spells that run, then what the scan from the run's end
   * spells, and reports what that scan reports.
   */
  lemma KeptStep(s: string, p: nat)
    requires p < |s| && ClosedFrom(s, p) && Kept(s[p])
    requires !StartsAt(s, p, FROM_C_PREFIX) && !StartsAt(s, p, IMPORT_PREFIX)
    ensures var e := Next(s, p);
      var r := LexFrom(s, p, Line(s, p), Column(s, p)); var rest := LexFrom(s, e, Line(s, e), Column(s, e));
      && PlainRun(s, p, e)
      && Texts(r.tokens) == s[p..e] + Texts(rest.tokens) && r.errors == rest.errors
  {
    var line, column := Line(s, p), Column(s, p);
    var st := ScanStep(s, p, line, column);
    KeptNotBlank(s[p]);
    StepFacts(s, p, line, column);
    RunFacts(s, p, st.next);
    assert st.line == Line(s, st.next) && st.column == Column(s, st.next);
    LexFromStep(s, p, line, column);
    var rest := LexFrom(s, st.next, st.line, st.column);
    TextsCons(st.token.value, rest.tokens);
  }

  lemma CoverKept(s: string, p: nat)
    requires p < |s| && ClosedFrom(s, p) && Kept(s[p])
    requires !StartsAt(s, p, FROM_C_PREFIX) && !StartsAt(s, p, IMPORT_PREFIX)
    requires Covered(s, Next(s, p))
    ensures Covered(s, p)
  {
    var e := Next(s, p);
    KeptStep(s, p);
    RunFacts(s, p, e);
    KeptCovered(s, p, e, LexFrom(s, p, Line(s, p), Column(s, p)), LexFrom(s, e, Line(s, e), Column(s, e)));
  }

  /** The coverage step for a token's run `[p, e)`, over the two scans as plain values. */
  lemma KeptCovered(s: string, p: nat, e: nat, r: LexOut, rest: LexOut)
    requires p <= e <= |s|
    requires KeptFrom(s, p) == s[p..e] + KeptFrom(s, e) && StraysFrom(s, p) == StraysFrom(s, e)
    requires Texts(r.tokens) == s[p..e] + Texts(rest.tokens) && r.errors == rest.errors
    requires Texts(rest.tokens) == KeptFrom(s, e) + "EOF" && rest.errors == StraysFrom(s, e)
    ensures Texts(r.tokens) == KeptFrom(s, p) + "EOF" && r.errors == StraysFrom(s, p)
  {
    KeptTexts(s[p..e], KeptFrom(s, e), Texts(rest.tokens), Texts(r.tokens));
  }

  /** Proof helper: the regrouping of strings behind `KeptCovered` (sequence associativity). */
  lemma KeptTexts(run: string, kept: string, rest: string, texts: string)
    requires rest == kept + "EOF" && texts == run + rest
    ensures texts == (run + kept) + "EOF"
  {
  }

  /**
   * Without import directives the scanner loses nothing but blanks and stray
   * characters: the token texts spell out the other characters in order,
   * followed by the sentinel's "EOF", and there is one diagnostic per stray
   * character, carrying its line and column.
   */
  lemma {:induction false} CoverageFrom(s: string, p: nat)
    requires p <= |s| && ClosedFrom(s, p) && NoImports(s)
    ensures Covered(s, p)
    decreases |s| - p
  {
    if p == |s| {
      assert Texts([EofToken]) == "EOF";
    } else {
      if StartsAt(s, p, FROM_C_PREFIX) {
        FromCIsImport(s, p);
      }
      assert !StartsAt(s, p, IMPORT_PREFIX);
      CoverageFrom(s, Next(s, p));
      if IsSpace(s[p]) {
        CoverBlank(s, p);
      } else if Kept(s[p]) {
        CoverKept(s, p);
      } else {
        CoverStray(s, p);
      }
    }
  }

  lemma Coverage(s: string)
    requires NoImports(s)
    ensures ScanClosed(s)
    ensures Texts(LexSpec(s).tokens) == KeptFrom(s, 0) + "EOF"
    ensures LexSpec(s).errors == StraysFrom(s, 0)
  {
    NoImportsClosed(s, 0);
    CoverageFrom(s, 0);
    assert Line(s, 0) == 1 && Column(s, 0) == 1;
  }
}
