/** What the older C lexer produces, stated over `LexFrom`. */
module LegacyLexerProperties {
  import opened LegacyLexer

  /** The three kinds of token the scan writes, and what each holds. */
  predicate Shaped(t: Token) {
    match t.kind
    case Identifier =>
      |t.value| >= 1 && IsAlpha(t.value[0]) && |t.value| < BUFFER_SIZE
      && forall k :: 0 <= k < |t.value| ==> IsWordChar(t.value[k])
    case Plus => t.value == "+"
    case EOF => t.value == "EOF"
    case _ => false
  }

  predicate AllShaped(ts: seq<Token>) { forall k :: 0 <= k < |ts| ==> Shaped(ts[k]) }

  lemma ShapedCons(t: Token, ts: seq<Token>)
    requires Shaped(t) && AllShaped(ts)
    ensures AllShaped([t] + ts)
  {
    var r := [t] + ts;
    forall k | 1 <= k < |r| ensures Shaped(r[k]) {
      assert r[k] == ts[k - 1];
    }
  }

  lemma {:induction false} LexFromShaped(s: string, i: nat)
    requires i <= |s| && WordsFit(s)
    ensures AllShaped(LexFrom(s, i))
    decreases |s| - i
  {
    if i < |s| {
      if IsAlpha(s[i]) {
        var e := WordEnd(s, i);
        LexFromShaped(s, e);
        var w := s[i..e];
        assert w[0] == s[i];
        assert forall k :: 0 <= k < |w| ==> IsWordChar(w[k]) by {
          forall k | 0 <= k < |w| ensures IsWordChar(w[k]) {
            assert w[k] == s[i + k];
          }
        }
        ShapedCons(Token(Identifier, w), LexFrom(s, e));
      } else {
        LexFromShaped(s, i + 1);
        if s[i] == '+' {
          ShapedCons(Token(Plus, "+"), LexFrom(s, i + 1));
        } else if !IsSpace(s[i]) {
          ShapedCons(Token(EOF, "EOF"), LexFrom(s, i + 1));
        }
      }
    }
  }

  /**
   * Every token is an identifier (a letter, then letters, digits and `_`, at
   * most 127 in all), a `+`, or an `EOF` token; there are at most as many
   * tokens as characters, so they fit the array.
   */
  lemma LexShape(s: string)
    requires WordsFit(s)
    ensures AllShaped(LexFrom(s, 0))
    ensures |LexFrom(s, 0)| <= |s|
  {
    LexFromShaped(s, 0);
    LexFromCount(s, 0);
  }

  /** What one character at the scan position does. */
  lemma CharacterCases(s: string, i: nat)
    requires i < |s|
    ensures s[i] == '+' ==> LexFrom(s, i) == [Token(Plus, "+")] + LexFrom(s, i + 1)
    ensures IsSpace(s[i]) ==> LexFrom(s, i) == LexFrom(s, i + 1)
    ensures !IsAlpha(s[i]) && s[i] != '+' && !IsSpace(s[i]) ==> LexFrom(s, i) == [Token(EOF, "EOF")] + LexFrom(s, i + 1)
  {
  }

  predicate Plain(c: char) { IsAlpha(c) || c == '+' || IsSpace(c) }

  /**
   * No sentinel: input made of letters, `+` and whitespace yields no `EOF`
   * token at all, so the array does not end with one.
   */
  lemma {:induction false} NoSentinel(s: string, i: nat)
    requires i <= |s|
    requires forall k :: i <= k < |s| ==> Plain(s[k])
    ensures forall k :: 0 <= k < |LexFrom(s, i)| ==> LexFrom(s, i)[k].kind != EOF
    decreases |s| - i
  {
    if i < |s| {
      var next := if IsAlpha(s[i]) then WordEnd(s, i) else i + 1;
      NoSentinel(s, next);
      var ts := LexFrom(s, i);
      if !IsSpace(s[i]) || IsAlpha(s[i]) {
        assert ts[1..] == LexFrom(s, next);
        forall k | 1 <= k < |ts| ensures ts[k].kind != EOF {
          assert ts[k] == LexFrom(s, next)[k - 1];
        }
      }
    }
  }

  /** `a + b` gives exactly three tokens; `x1 2` gives an identifier and an `EOF` token for the digit. */
  lemma Examples()
    ensures LexFrom("a + b", 0) == [Token(Identifier, "a"), Token(Plus, "+"), Token(Identifier, "b")]
    ensures LexFrom("x1 2", 0) == [Token(Identifier, "x1"), Token(EOF, "EOF")]
  {
    assert WordEnd("a + b", 4) == 5;
    assert WordEnd("a + b", 0) == 1;
    assert "a + b"[0..1] == "a" && "a + b"[4..5] == "b";
    assert WordEnd("x1 2", 0) == 2;
    assert "x1 2"[0..2] == "x1";
  }
}
