/**
 * The token-cursor parser of the C pipeline (src/c_core/parser.c, node types
 * from src/c_core/parser.h). The cursor `Token** tokens` is an index into the
 * token sequence, taken in and handed back; the diagnostics every parse
 * function prints are collected, in order, as the lines it prints.
 *
 * `ParseExpr`, `ParseStmt` and `ParseBlock` are the meaning of the three
 * parse functions; `ParseExpression`, `ParseStatement` and `ParseBlockLoop`
 * are the imperative parse functions, proved to compute them.
 */
module CParser {
  import opened CTokens

  /** `ASTNodeType`, with the `AST_INPUT` variant the parser uses but the header leaves out. */
  datatype NodeType =
    | UnknownNode
    | VarAssign
    | FuncDef
    | Return
    | WhileLoop
    | IfStatement
    | Expression
    | Print
    | Input

  /** An `ASTNode*`: NULL, or a node with its four links. */
  datatype Ast =
    | Null
    | Node(nodeType: NodeType, token: Token, left: Ast, right: Ast, next: Ast, body: Ast)

  /**
   * What a parse function hands back: the node and the new cursor; or the
   * block loop that never ends because a statement left the cursor where it
   * was; or a cursor that left the lexed tokens, after which the C code reads
   * slots the lexer never wrote.
   */
  datatype Parse =
    | Done(node: Ast, pos: nat, diags: seq<string>)
    | Stuck(diags: seq<string>)
    | PastEnd(diags: seq<string>)

  /** A parse that returns normally. */
  datatype Expr = Expr(node: Ast, pos: nat, diags: seq<string>)

  /** A token sequence as the C lexer leaves it: it ends with the EOF sentinel. */
  predicate Terminated(toks: seq<Token>) {
    |toks| > 0 && toks[|toks| - 1] == EofToken
  }

  predicate IsSym(t: Token, v: string) { t.kind == Symbol && t.value == v }

  predicate Loose(t: Token) { t.kind == Operator || t.kind == Symbol }

  /** `snprintf` into `char message[256]` keeps at most 255 characters. */
  function Clip(m: string): (r: string)
    ensures |r| <= 255 && |r| <= |m| && r == m[..|r|]
    ensures |m| <= 255 ==> r == m
  {
    if |m| <= 255 then m else m[..255]
  }

  /** The line `reportParserError` prints; `parse` starts the record at line 0, column 0. */
  function Report(m: string): string {
    "Parser Error [Line 0, Column 0]: " + Clip(m) + "\n"
  }

  const EOF_IN_EXPR: string := "Unexpected end of file while parsing expression"
  const NO_BRACE_AFTER_FUNC: string := "Expected '{' after function definition"
  const NO_EQUALS: string := "Expected '=' after identifier"

  function NoRightOperand(op: Token): string {
    "Expected right-hand side of operator '" + op.value + "'"
  }

  function UnexpectedToken(t: Token): string {
    "Unexpected token '" + t.value + "'"
  }

  /** `createNode`: a node of the given type and token, every link NULL. */
  function CreateNode(nodeType: NodeType, token: Token): (n: Ast)
    ensures n.Node? && n.nodeType == nodeType && n.token == token
    ensures n.left == Null && n.right == Null && n.next == Null && n.body == Null
  {
    Node(nodeType, token, Null, Null, Null, Null)
  }

  /** A node of its own: an expression holding one token and no links. */
  predicate IsLeaf(n: Ast) {
    n.Node? && n.nodeType == Expression && n.left == Null && n.right == Null && n.next == Null && n.body == Null
  }

  /**
   * `parseExpression`: at EOF, NULL and no token used; otherwise one token of
   * any kind, followed by at most one operator and its right operand.
   */
  function ParseExpr(toks: seq<Token>, pos: nat): (r: Expr)
    requires Terminated(toks) && pos < |toks|
    ensures pos <= r.pos < |toks|
  {
    if toks[pos].kind == EOF then
      Expr(Null, pos, [Report(EOF_IN_EXPR)])
    else
      var left := CreateNode(Expression, toks[pos]);
      if toks[pos + 1].kind != Operator then
        Expr(left, pos + 1, [])
      else
        var op := toks[pos + 1];
        if toks[pos + 2].kind == EOF then
          Expr(left, pos + 2, [Report(NoRightOperand(op))])
        else
          Expr(Node(Expression, op, left, CreateNode(Expression, toks[pos + 2]), Null, Null), pos + 3, [])
  }

  /** The cursor after the loop that skips loose operators and symbols. */
  function SkipLoose(toks: seq<Token>, pos: nat): (q: nat)
    requires Terminated(toks) && pos < |toks|
    ensures pos <= q < |toks| && !Loose(toks[q])
    ensures forall i :: pos <= i < q ==> Loose(toks[i])
    decreases |toks| - pos
  {
    if Loose(toks[pos]) then SkipLoose(toks, pos + 1) else pos
  }

  /** The first `)` symbol at or after `from`, if the lexed tokens hold one. */
  function FindClose(toks: seq<Token>, from: nat): (k: nat)
    requires from <= |toks|
    ensures from <= k <= |toks|
    ensures k < |toks| ==> IsSym(toks[k], ")")
    ensures forall i :: from <= i < k ==> !IsSym(toks[i], ")")
    decreases |toks| - from
  {
    if from == |toks| || IsSym(toks[from], ")") then from else FindClose(toks, from + 1)
  }

  /** The cursor after an optional `;`. */
  function OptSemi(toks: seq<Token>, pos: nat): (p: nat)
    requires pos < |toks|
    ensures p == pos || (p == pos + 1 && IsSym(toks[pos], ";"))
  {
    if IsSym(toks[pos], ";") then pos + 1 else pos
  }

  /** `current->next = stmt`: a NULL statement is dropped, any other heads what follows. */
  function Link(stmt: Ast, rest: Ast): Ast {
    if stmt.Null? then rest else stmt.(next := rest)
  }

  /** Diagnostics printed before a parse that is handed on. */
  function After(d: seq<string>, r: Parse): Parse {
    match r
    case Done(n, p, d2) => Done(n, p, d + d2)
    case Stuck(d2) => Stuck(d + d2)
    case PastEnd(d2) => PastEnd(d + d2)
  }

  /** `parseStatement`: loose operators and symbols are skipped first. */
  function ParseStmt(toks: seq<Token>, pos: nat): (r: Parse)
    requires Terminated(toks) && pos < |toks|
    ensures r.Done? ==> pos <= r.pos < |toks|
    decreases |toks| - pos, 2
  {
    ParseAt(toks, SkipLoose(toks, pos))
  }

  /** The dispatch of `parseStatement` on the token after the skipped ones. */
  function ParseAt(toks: seq<Token>, q: nat): (r: Parse)
    requires Terminated(toks) && q < |toks|
    ensures r.Done? ==> q <= r.pos < |toks|
    decreases |toks| - q, 1
  {
    var t := toks[q];
    if t.kind == Keyword && t.value == "func" then
      ParseFunc(toks, q)
    else if t.kind == Keyword && (t.value == "while" || t.value == "if") then
      ParseGuarded(toks, q)
    else if t.kind == Keyword && (t.value == "return" || t.value == "print" || t.value == "input") then
      ParsePrefixed(toks, q)
    else if t.kind == Identifier || t.kind == Number then
      ParseOperandAt(toks, q)
    else
      Done(Null, q, [Report(UnexpectedToken(t))])
  }

  /** The `return`, `print` and `input` branches: the keyword, an expression, an optional `;`. */
  function ParsePrefixed(toks: seq<Token>, q: nat): (r: Parse)
    requires Terminated(toks) && q < |toks| - 1
    ensures r.Done? && q < r.pos < |toks|
  {
    var t := toks[q];
    var e := ParseExpr(toks, q + 1);
    var nodeType := if t.value == "return" then Return else if t.value == "print" then Print else Input;
    Done(Node(nodeType, t, e.node, Null, Null, Null), OptSemi(toks, e.pos), e.diags)
  }

  /** The identifier and number branches. */
  function ParseOperandAt(toks: seq<Token>, q: nat): (r: Parse)
    requires Terminated(toks) && q < |toks| - 1
    ensures r.Done? && q < r.pos < |toks|
  {
    var t := toks[q];
    if t.kind == Identifier && toks[q + 1].kind == Operator && toks[q + 1].value == "=" then
      var e := ParseExpr(toks, q + 2);
      Done(Node(VarAssign, t, Null, e.node, Null, Null), OptSemi(toks, e.pos), e.diags)
    else if t.kind == Number then
      Done(CreateNode(Expression, t), OptSemi(toks, q + 1), [])
    else
      Done(Null, q + 1, [Report(NO_EQUALS)])
  }

  /** The `func` branch, with the cursor on the keyword. */
  function ParseFunc(toks: seq<Token>, q: nat): (r: Parse)
    requires Terminated(toks) && q < |toks| - 1
    ensures r.Done? ==> q < r.pos < |toks|
    decreases |toks| - q, 0
  {
    var name := toks[q + 1];
    if q + 2 == |toks| then
      PastEnd([])
    else if toks[q + 2].value != "(" then
      Done(Null, q + 2, [Report(UnexpectedToken(toks[q]))])
    else
      var k := FindClose(toks, q + 3);
      if k == |toks| then
        PastEnd([])
      else if toks[k + 1].value != "{" then
        Done(Null, k + 1, [Report(NO_BRACE_AFTER_FUNC)])
      else
        match ParseBlock(toks, k + 2)
        case Done(body, p, d) => Done(Node(FuncDef, name, Null, Null, Null, body), p, d)
        case other => other
  }

  /** The `while` and `if` branches, with the cursor on the keyword. */
  function ParseGuarded(toks: seq<Token>, q: nat): (r: Parse)
    requires Terminated(toks) && q < |toks| - 1
    ensures r.Done? ==> q < r.pos < |toks|
    decreases |toks| - q, 0
  {
    var t := toks[q];
    var cond := ParseExpr(toks, q + 1);
    if toks[cond.pos].value != "{" then
      Done(Null, cond.pos, cond.diags + [Report(UnexpectedToken(t))])
    else
      var nodeType := if t.value == "while" then WhileLoop else IfStatement;
      match ParseBlock(toks, cond.pos + 1)
      case Done(body, p, d) => Done(Node(nodeType, t, cond.node, Null, Null, body), p, cond.diags + d)
      case other => After(cond.diags, other)
  }

  /** `parseBlock`: statements up to EOF or a `}`, which is consumed. */
  function ParseBlock(toks: seq<Token>, pos: nat): (r: Parse)
    requires Terminated(toks) && pos < |toks|
    ensures r.Done? ==> pos <= r.pos < |toks|
    decreases |toks| - pos, 3
  {
    if toks[pos].kind == EOF then
      Done(Null, pos, [])
    else if IsSym(toks[pos], "}") then
      Done(Null, pos + 1, [])
    else
      match ParseStmt(toks, pos)
      case Done(stmt, p, d) =>
        if p == pos then Stuck(d)
        else
          (match ParseBlock(toks, p)
           case Done(rest, p2, d2) => Done(Link(stmt, rest), p2, d + d2)
           case other => After(d, other))
      case other => other
  }

  /** The nodes of a `next` chain, each with its link cleared. */
  function ChainList(n: Ast): seq<Ast> {
    if n.Null? then [] else [n.(next := Null)] + ChainList(n.next)
  }

  /** The number of nodes reachable through all four links. */
  function Size(n: Ast): nat {
    if n.Null? then 0 else 1 + Size(n.left) + Size(n.right) + Size(n.body) + Size(n.next)
  }

  /** `parse`: one block from the first token. */
  function ParseProgram(toks: seq<Token>): Parse
    requires Terminated(toks)
  {
    ParseBlock(toks, 0)
  }

  /** `for (i < depth) printf("  ")`. */
  function Indent(depth: nat): (r: string)
    ensures |r| == 2 * depth && forall i :: 0 <= i < |r| ==> r[i] == ' '
  {
    if depth == 0 then "" else "  " + Indent(depth - 1)
  }

  function Label(n: Ast): string
    requires n.Node?
  {
    match n.nodeType
    case FuncDef => "Function: " + n.token.value + "\n"
    case Return => "Return\n"
    case VarAssign => "Assign: " + n.token.value + "\n"
    case Print => "Print\n"
    case Input => "Input\n"
    case WhileLoop => "While\n"
    case IfStatement => "If\n"
    case Expression => "Expr: " + n.token.value + "\n"
    case UnknownNode => "Unknown\n"
  }

  /** `printAST`: one line per node, children one level deeper, `next` at the same depth. */
  function PrintAst(n: Ast, depth: nat): seq<string> {
    if n.Null? then
      []
    else
      [Indent(depth) + Label(n)] + PrintAst(n.left, depth + 1) + PrintAst(n.right, depth + 1)
      + PrintAst(n.body, depth + 1) + PrintAst(n.next, depth)
  }

  // ---------------------------------------------------------------------
  // The imperative parser.

  /** `parseExpression`, moving the cursor from `pos0` to `pos`. */
  method ParseExpression(toks: seq<Token>, pos0: nat) returns (node: Ast, pos: nat, diags: seq<string>)
    requires Terminated(toks) && pos0 < |toks|
    ensures Expr(node, pos, diags) == ParseExpr(toks, pos0)
  {
    pos, diags := pos0, [];
    if toks[pos].kind == EOF {
      diags := diags + [Report(EOF_IN_EXPR)];
      return Null, pos, diags;
    }
    var left := CreateNode(Expression, toks[pos]);
    pos := pos + 1;
    if toks[pos].kind == Operator {
      var op := toks[pos];
      pos := pos + 1;
      if toks[pos].kind == EOF {
        diags := diags + [Report(NoRightOperand(op))];
        return left, pos, diags;
      }
      var right := CreateNode(Expression, toks[pos]);
      pos := pos + 1;
      var opNode := CreateNode(Expression, op);
      opNode := opNode.(left := left, right := right);
      return opNode, pos, diags;
    }
    return left, pos, diags;
  }

  /** `parseStatement`, reading the cursor `pos0`. */
  method ParseStatement(toks: seq<Token>, pos0: nat) returns (r: Parse)
    requires Terminated(toks) && pos0 < |toks|
    ensures r == ParseStmt(toks, pos0)
    decreases |toks| - pos0, 2
  {
    var pos := pos0;
    while Loose(toks[pos])
      invariant pos0 <= pos < |toks| && SkipLoose(toks, pos0) == SkipLoose(toks, pos)
      decreases |toks| - pos
    {
      pos := pos + 1;
    }
    r := Dispatch(toks, pos);
  }

  /** The branches of `parseStatement`, with the cursor on the first token not skipped. */
  method Dispatch(toks: seq<Token>, pos: nat) returns (r: Parse)
    requires Terminated(toks) && pos < |toks|
    ensures r == ParseAt(toks, pos)
    decreases |toks| - pos, 1
  {
    var token := toks[pos];
    if token.kind == Keyword && token.value == "func" {
      r := ParseFunction(toks, pos);
    } else if token.kind == Keyword && (token.value == "while" || token.value == "if") {
      r := ParseGuardedStatement(toks, pos);
    } else if token.kind == Keyword && (token.value == "return" || token.value == "print" || token.value == "input") {
      r := ParsePrefixedStatement(toks, pos);
    } else if token.kind == Identifier || token.kind == Number {
      r := ParseOperand(toks, pos);
    } else {
      r := Done(Null, pos, [Report(UnexpectedToken(token))]);
    }
  }

  /** The `return`, `print` and `input` branches of `parseStatement`. */
  method ParsePrefixedStatement(toks: seq<Token>, pos0: nat) returns (r: Parse)
    requires Terminated(toks) && pos0 < |toks| - 1
    ensures r == ParsePrefixed(toks, pos0)
  {
    var token := toks[pos0];
    var expr, pos, diags := ParseExpression(toks, pos0 + 1);
    var nodeType := if token.value == "return" then Return else if token.value == "print" then Print else Input;
    var node := CreateNode(nodeType, token);
    node := node.(left := expr);
    if IsSym(toks[pos], ";") {
      pos := pos + 1;
    }
    r := Done(node, pos, diags);
  }

  /** The identifier and number branches of `parseStatement`, with the cursor on the token. */
  method ParseOperand(toks: seq<Token>, pos0: nat) returns (r: Parse)
    requires Terminated(toks) && pos0 < |toks| - 1
    ensures r == ParseOperandAt(toks, pos0)
  {
    var token := toks[pos0];
    var pos := pos0 + 1;
    if token.kind == Identifier && toks[pos].kind == Operator && toks[pos].value == "=" {
      pos := pos + 1;
      var expr, diags;
      expr, pos, diags := ParseExpression(toks, pos);
      var node := CreateNode(VarAssign, token);
      node := node.(right := expr);
      if IsSym(toks[pos], ";") {
        pos := pos + 1;
      }
      r := Done(node, pos, diags);
    } else if token.kind == Number {
      var node := CreateNode(Expression, token);
      if IsSym(toks[pos], ";") {
        pos := pos + 1;
      }
      r := Done(node, pos, []);
    } else {
      r := Done(Null, pos, [Report(NO_EQUALS)]);
    }
  }

  /** The `func` branch of `parseStatement`, with the cursor on the keyword. */
  method ParseFunction(toks: seq<Token>, pos0: nat) returns (r: Parse)
    requires Terminated(toks) && pos0 < |toks| - 1
    ensures r == ParseFunc(toks, pos0)
    decreases |toks| - pos0, 0
  {
    var pos := pos0 + 1;
    var funcName := toks[pos];
    pos := pos + 1;
    if pos == |toks| {
      return PastEnd([]);
    }
    if toks[pos].value != "(" {
      return Done(Null, pos, [Report(UnexpectedToken(toks[pos0]))]);
    }
    pos := pos + 1;
    while pos < |toks| && !IsSym(toks[pos], ")")
      invariant pos0 + 3 <= pos <= |toks|
      invariant FindClose(toks, pos) == FindClose(toks, pos0 + 3)
      decreases |toks| - pos
    {
      pos := pos + 1;
    }
    if pos == |toks| {
      return PastEnd([]);
    }
    pos := pos + 1;
    if toks[pos].value != "{" {
      return Done(Null, pos, [Report(NO_BRACE_AFTER_FUNC)]);
    }
    pos := pos + 1;
    r := ParseBlockLoop(toks, pos);
    if r.Done? {
      var funcNode := CreateNode(FuncDef, funcName);
      r := Done(funcNode.(body := r.node), r.pos, r.diags);
    }
  }

  /** The `while` and `if` branches of `parseStatement`, with the cursor on the keyword. */
  method ParseGuardedStatement(toks: seq<Token>, pos0: nat) returns (r: Parse)
    requires Terminated(toks) && pos0 < |toks| - 1
    ensures r == ParseGuarded(toks, pos0)
    decreases |toks| - pos0, 0
  {
    var token := toks[pos0];
    var cond, pos, diags := ParseExpression(toks, pos0 + 1);
    if toks[pos].value != "{" {
      return Done(Null, pos, diags + [Report(UnexpectedToken(token))]);
    }
    pos := pos + 1;
    r := ParseBlockLoop(toks, pos);
    if r.Done? {
      var node := CreateNode(if token.value == "while" then WhileLoop else IfStatement, token);
      r := Done(node.(left := cond, body := r.node), r.pos, diags + r.diags);
    } else {
      r := After(diags, r);
    }
  }

  /**
   * The statements `head`/`current` link, in order, in front of `tail`:
   * NULL statements are dropped.
   */
  function ChainOnto(stmts: seq<Ast>, tail: Ast): Ast {
    if stmts == [] then tail else Link(stmts[0], ChainOnto(stmts[1..], tail))
  }

  /** The parse from a cursor, with the statements already read linked in front of it. */
  function Resume(stmts: seq<Ast>, d: seq<string>, r: Parse): Parse {
    match r
    case Done(n, p, d2) => Done(ChainOnto(stmts, n), p, d + d2)
    case other => After(d, other)
  }

  lemma {:induction false} ChainOntoSnoc(stmts: seq<Ast>, stmt: Ast, tail: Ast)
    ensures ChainOnto(stmts + [stmt], tail) == ChainOnto(stmts, Link(stmt, tail))
  {
    if stmts != [] {
      assert (stmts + [stmt])[1..] == stmts[1..] + [stmt];
      ChainOntoSnoc(stmts[1..], stmt, tail);
    }
  }

  /** One turn of the block loop, in terms of the parse from the cursor. */
  lemma BlockStep(toks: seq<Token>, pos: nat, stmts: seq<Ast>, diags: seq<string>)
    requires Terminated(toks) && pos < |toks| && toks[pos].kind != EOF && !IsSym(toks[pos], "}")
    ensures var s := ParseStmt(toks, pos);
      var r := Resume(stmts, diags, ParseBlock(toks, pos));
      if !s.Done? then r == After(diags, s)
      else if s.pos == pos then r == Stuck(diags + s.diags)
      else r == Resume(stmts + [s.node], diags + s.diags, ParseBlock(toks, s.pos))
  {
    var s := ParseStmt(toks, pos);
    if s.Done? && s.pos != pos {
      var rest := ParseBlock(toks, s.pos);
      if rest.Done? {
        assert ParseBlock(toks, pos) == Done(Link(s.node, rest.node), rest.pos, s.diags + rest.diags);
        ChainOntoSnoc(stmts, s.node, rest.node);
        assert diags + (s.diags + rest.diags) == (diags + s.diags) + rest.diags;
      } else {
        assert ParseBlock(toks, pos) == After(s.diags, rest);
        AfterAfter(diags, s.diags, rest);
      }
    }
  }

  lemma AfterAfter(d1: seq<string>, d2: seq<string>, r: Parse)
    ensures After(d1, After(d2, r)) == After(d1 + d2, r)
  {
    assert d1 + (d2 + r.diags) == (d1 + d2) + r.diags;
  }

  /**
   * `parseBlock`: the loop asks for one statement after another and links the
   * non-NULL ones. A statement that leaves the cursor where it was would make
   * the C loop repeat it forever; the loop reports that as `Stuck`.
   */
  method ParseBlockLoop(toks: seq<Token>, pos0: nat) returns (r: Parse)
    requires Terminated(toks) && pos0 < |toks|
    ensures r == ParseBlock(toks, pos0)
    decreases |toks| - pos0, 3
  {
    var pos := pos0;
    var stmts: seq<Ast> := [];
    var diags: seq<string> := [];
    while toks[pos].kind != EOF && !IsSym(toks[pos], "}")
      invariant pos0 <= pos < |toks|
      invariant ParseBlock(toks, pos0) == Resume(stmts, diags, ParseBlock(toks, pos))
      decreases |toks| - pos
    {
      var s := ParseStatement(toks, pos);
      BlockStep(toks, pos, stmts, diags);
      if !s.Done? {
        return After(diags, s);
      }
      if s.pos == pos {
        return Stuck(diags + s.diags);
      }
      stmts, diags, pos := stmts + [s.node], diags + s.diags, s.pos;
    }
    if IsSym(toks[pos], "}") {
      pos := pos + 1;
    }
    return Done(ChainOnto(stmts, Null), pos, diags);
  }
}
