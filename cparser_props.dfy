/** What the C parser does, stated over the meaning of its parse functions. */
module CParserProperties {
  import opened CTokens
  import opened CParser

  /**
   * `parseExpression`: at EOF it gives NULL and uses no token. Otherwise it
   * takes one token of any kind as a leaf; an operator after it pairs that
   * leaf with the token after the operator (three tokens in all), unless EOF
   * follows the operator, when the leaf alone comes back after two tokens
   * and a diagnostic.
   */
  lemma ExprShape(toks: seq<Token>, pos: nat)
    requires Terminated(toks) && pos < |toks|
    ensures var r := ParseExpr(toks, pos);
      (toks[pos].kind == EOF ==> r == Expr(Null, pos, [Report(EOF_IN_EXPR)])) &&
      (toks[pos].kind != EOF ==>
        pos + 1 <= r.pos <= pos + 3 &&
        (r.pos == pos + 2 <==> toks[pos + 1].kind == Operator && toks[pos + 2].kind == EOF) &&
        (r.pos == pos + 3 <==> toks[pos + 1].kind == Operator && toks[pos + 2].kind != EOF) &&
        (r.diags == [] <==> r.pos != pos + 2) &&
        (r.pos != pos + 3 ==> IsLeaf(r.node) && r.node.token == toks[pos]) &&
        (r.pos == pos + 3 ==>
          r.node.Node? && r.node.nodeType == Expression && r.node.token == toks[pos + 1] &&
          IsLeaf(r.node.left) && r.node.left.token == toks[pos] &&
          IsLeaf(r.node.right) && r.node.right.token == toks[pos + 2] &&
          r.node.next == Null && r.node.body == Null))
  {
  }

  /** A loose operator or symbol in front of a statement, `}` included, is skipped. */
  lemma SkipsLoose(toks: seq<Token>, pos: nat)
    requires Terminated(toks) && pos < |toks| && Loose(toks[pos])
    ensures ParseStmt(toks, pos) == ParseStmt(toks, pos + 1)
  {
  }

  /** Everything up to the first token that is neither an operator nor a symbol is skipped. */
  lemma {:induction false} SkipsAllLoose(toks: seq<Token>, pos: nat, q: nat)
    requires Terminated(toks) && pos <= q < |toks|
    requires forall i :: pos <= i < q ==> Loose(toks[i])
    ensures ParseStmt(toks, pos) == ParseStmt(toks, q)
    decreases q - pos
  {
    if pos < q {
      SkipsAllLoose(toks, pos + 1, q);
    }
  }

  /**
   * `name = expr`: an assignment node holding the identifier, with the
   * expression on the right, nothing on the left, and an optional `;` after.
   */
  lemma AssignShape(toks: seq<Token>, q: nat)
    requires Terminated(toks) && q < |toks| - 1
    requires toks[q].kind == Identifier && toks[q + 1].kind == Operator && toks[q + 1].value == "="
    ensures var e := ParseExpr(toks, q + 2);
      ParseStmt(toks, q) == Done(Node(VarAssign, toks[q], Null, e.node, Null, Null), OptSemi(toks, e.pos), e.diags)
  {
  }

  /** An identifier not followed by `=` is consumed and gives NULL. */
  lemma BareIdentifier(toks: seq<Token>, q: nat)
    requires Terminated(toks) && q < |toks| - 1 && toks[q].kind == Identifier
    requires !(toks[q + 1].kind == Operator && toks[q + 1].value == "=")
    ensures ParseStmt(toks, q) == Done(Null, q + 1, [Report(NO_EQUALS)])
  {
  }

  /**
   * `return`, `print` and `input`: a node holding the keyword with the
   * expression on the left, then an optional `;`. A number statement is a
   * leaf, again with an optional `;`.
   */
  lemma PrefixedShape(toks: seq<Token>, q: nat)
    requires Terminated(toks) && q < |toks| - 1 && toks[q].kind == Keyword
    requires toks[q].value == "return" || toks[q].value == "print" || toks[q].value == "input"
    ensures var e := ParseExpr(toks, q + 1);
      var r := ParseStmt(toks, q);
      r.Done? && r.node.Node? && r.node.token == toks[q] && r.node.left == e.node &&
      r.node.right == Null && r.node.next == Null && r.node.body == Null &&
      r.node.nodeType == (if toks[q].value == "return" then Return else if toks[q].value == "print" then Print else Input) &&
      r.pos == OptSemi(toks, e.pos) && r.diags == e.diags
  {
  }

  lemma NumberShape(toks: seq<Token>, q: nat)
    requires Terminated(toks) && q < |toks| - 1 && toks[q].kind == Number
    ensures var r := ParseStmt(toks, q);
      r == Done(CreateNode(Expression, toks[q]), OptSemi(toks, q + 1), [])
  {
  }

  /** A token the statement parser neither skips nor dispatches on. */
  predicate Stalls(t: Token) {
    !Loose(t) && t.kind != Identifier && t.kind != Number &&
    !(t.kind == Keyword &&
      (t.value == "func" || t.value == "while" || t.value == "if" ||
       t.value == "return" || t.value == "print" || t.value == "input"))
  }

  /**
   * A statement leaves the cursor where it was exactly when it starts at a
   * token that stalls (keyword `else`, `int` or `for`, an import token, EOF);
   * it then gives NULL and one diagnostic.
   */
  lemma StallsExactly(toks: seq<Token>, pos: nat)
    requires Terminated(toks) && pos < |toks|
    ensures var r := ParseStmt(toks, pos);
      (r.Done? && r.pos == pos) <==> Stalls(toks[pos])
    ensures Stalls(toks[pos]) ==> ParseStmt(toks, pos) == Done(Null, pos, [Report(UnexpectedToken(toks[pos]))])
  {
    var q := SkipLoose(toks, pos);
    if Loose(toks[pos]) {
      assert pos < q;
    }
  }

  /** A block that meets a stalling token other than EOF never ends. */
  lemma StallingBlock(toks: seq<Token>, pos: nat)
    requires Terminated(toks) && pos < |toks| && Stalls(toks[pos]) && toks[pos].kind != EOF
    ensures ParseBlock(toks, pos) == Stuck([Report(UnexpectedToken(toks[pos]))])
  {
    StallsExactly(toks, pos);
  }

  /** A `func` whose parameter list has no `)` sends the cursor past the lexed tokens. */
  lemma FuncWithoutClose(toks: seq<Token>, q: nat)
    requires Terminated(toks) && q + 2 < |toks| && toks[q] == Token(Keyword, "func")
    requires toks[q + 2].value == "("
    requires forall i :: q + 3 <= i < |toks| ==> !IsSym(toks[i], ")")
    ensures ParseStmt(toks, q).PastEnd?
  {
    NoClose(toks, q + 3);
    assert SkipLoose(toks, q) == q;
    assert ParseStmt(toks, q) == ParseFunc(toks, q);
  }

  lemma NoClose(toks: seq<Token>, from: nat)
    requires from <= |toks| && forall i :: from <= i < |toks| ==> !IsSym(toks[i], ")")
    ensures FindClose(toks, from) == |toks|
  {
  }

  /** A complete block ends on EOF, or just after the `}` it consumed. */
  lemma {:induction false} BlockEnd(toks: seq<Token>, pos: nat)
    requires Terminated(toks) && pos < |toks|
    ensures var r := ParseBlock(toks, pos);
      r.Done? ==> toks[r.pos].kind == EOF || (pos < r.pos && IsSym(toks[r.pos - 1], "}"))
    decreases |toks| - pos
  {
    if toks[pos].kind != EOF && !IsSym(toks[pos], "}") {
      var s := ParseStmt(toks, pos);
      if s.Done? && s.pos != pos {
        BlockEnd(toks, s.pos);
      }
    }
  }

  /** A statement node comes back unlinked. */
  lemma StmtUnlinked(toks: seq<Token>, pos: nat)
    requires Terminated(toks) && pos < |toks|
    ensures var r := ParseStmt(toks, pos);
      r.Done? && r.node.Node? ==> r.node.next == Null
  {
    var q := SkipLoose(toks, pos);
    var t := toks[q];
    if t.kind == Keyword && t.value == "func" {
      assert ParseStmt(toks, pos) == ParseFunc(toks, q);
      FuncUnlinked(toks, q);
    } else if t.kind == Keyword && (t.value == "while" || t.value == "if") {
      assert ParseStmt(toks, pos) == ParseGuarded(toks, q);
      GuardedUnlinked(toks, q);
    }
  }

  lemma GuardedUnlinked(toks: seq<Token>, q: nat)
    requires Terminated(toks) && q < |toks| - 1
    ensures var r := ParseGuarded(toks, q);
      r.Done? && r.node.Node? ==> r.node.next == Null
  {
    var cond := ParseExpr(toks, q + 1);
    if toks[cond.pos].value == "{" {
      var t := toks[q];
      var nodeType := if t.value == "while" then WhileLoop else IfStatement;
      var b := ParseBlock(toks, cond.pos + 1);
      if b.Done? {
        assert ParseGuarded(toks, q).node == Node(nodeType, t, cond.node, Null, Null, b.node);
      } else {
        assert !After(cond.diags, b).Done?;
      }
    }
  }

  lemma FuncUnlinked(toks: seq<Token>, q: nat)
    requires Terminated(toks) && q < |toks| - 1
    ensures var r := ParseFunc(toks, q);
      r.Done? && r.node.Node? ==> r.node.next == Null
  {
    if q + 2 < |toks| && toks[q + 2].value == "(" {
      var k := FindClose(toks, q + 3);
      if k < |toks| && toks[k + 1].value == "{" {
        var b := ParseBlock(toks, k + 2);
        if b.Done? {
          assert ParseFunc(toks, q) == Done(Node(FuncDef, toks[q + 1], Null, Null, Null, b.node), b.pos, b.diags);
        } else {
          assert ParseFunc(toks, q) == b;
        }
      }
    }
  }

  /** The statements the block loop reads, one after the other, until it stops. */
  function StmtsFrom(toks: seq<Token>, pos: nat): seq<Ast>
    requires Terminated(toks) && pos < |toks|
    decreases |toks| - pos
  {
    if toks[pos].kind == EOF || IsSym(toks[pos], "}") then []
    else
      var s := ParseStmt(toks, pos);
      if !s.Done? || s.pos == pos then [] else [s.node] + StmtsFrom(toks, s.pos)
  }

  function NonNull(stmts: seq<Ast>): seq<Ast> {
    if stmts == [] then [] else (if stmts[0].Null? then [] else [stmts[0]]) + NonNull(stmts[1..])
  }

  /**
   * `parseBlock` links the statements it reads in the order it reads them,
   * leaving out the NULL ones.
   */
  lemma {:induction false} BlockChain(toks: seq<Token>, pos: nat)
    requires Terminated(toks) && pos < |toks|
    ensures var r := ParseBlock(toks, pos);
      r.Done? ==> ChainList(r.node) == NonNull(StmtsFrom(toks, pos))
    decreases |toks| - pos
  {
    if toks[pos].kind != EOF && !IsSym(toks[pos], "}") {
      var s := ParseStmt(toks, pos);
      if s.Done? && s.pos != pos {
        BlockChain(toks, s.pos);
        StmtUnlinked(toks, pos);
        var tail := StmtsFrom(toks, s.pos);
        assert ([s.node] + tail)[1..] == tail;
        var r := ParseBlock(toks, s.pos);
        if r.Done? && s.node.Node? {
          assert s.node.(next := r.node).(next := Null) == s.node;
        }
      }
    }
  }

  /** `printAST` prints one line per node. */
  lemma {:induction false} PrintOneLinePerNode(n: Ast, depth: nat)
    ensures |PrintAst(n, depth)| == Size(n)
  {
    if n.Node? {
      PrintOneLinePerNode(n.left, depth + 1);
      PrintOneLinePerNode(n.right, depth + 1);
      PrintOneLinePerNode(n.body, depth + 1);
      PrintOneLinePerNode(n.next, depth);
    }
  }

  /** A line that starts with at least `depth` levels of indentation. */
  predicate IndentedAtLeast(line: string, depth: nat) {
    |line| >= 2 * depth && forall i :: 0 <= i < 2 * depth ==> line[i] == ' '
  }

  /** Every line `printAST` prints for a node at `depth` is indented at least that far. */
  lemma {:induction false} PrintIndented(n: Ast, depth: nat)
    ensures forall k :: 0 <= k < |PrintAst(n, depth)| ==> IndentedAtLeast(PrintAst(n, depth)[k], depth)
  {
    if n.Node? {
      PrintIndented(n.left, depth + 1);
      PrintIndented(n.right, depth + 1);
      PrintIndented(n.body, depth + 1);
      PrintIndented(n.next, depth);
      var lines := PrintAst(n, depth);
      forall k | 0 <= k < |lines| ensures IndentedAtLeast(lines[k], depth) {
        var a := [Indent(depth) + Label(n)];
        var b := PrintAst(n.left, depth + 1);
        var c := PrintAst(n.right, depth + 1);
        var e := PrintAst(n.body, depth + 1);
        var f := PrintAst(n.next, depth);
        assert lines == a + b + c + e + f;
        if k < 1 {
        } else if k < 1 + |b| {
          assert lines[k] == b[k - 1];
          assert IndentedAtLeast(b[k - 1], depth + 1);
        } else if k < 1 + |b| + |c| {
          assert lines[k] == c[k - 1 - |b|];
          assert IndentedAtLeast(c[k - 1 - |b|], depth + 1);
        } else if k < 1 + |b| + |c| + |e| {
          assert lines[k] == e[k - 1 - |b| - |c|];
          assert IndentedAtLeast(e[k - 1 - |b| - |c|], depth + 1);
        } else {
          assert lines[k] == f[k - 1 - |b| - |c| - |e|];
        }
      }
    }
  }
}
