/** What the C executor does, stated over `ExecChain`. */
module CExecutorProperties {
  import opened CTokens
  import opened CParser
  import opened CExecutor
  import Stdio

  /** A `return` ends its chain: nothing after it runs. */
  lemma ReturnEndsChain(n: Ast, stdin: string)
    requires n.Node? && n.nodeType == Return
    ensures ExecChain(n, stdin) == ExecChain(n.(next := Null), stdin)
    ensures ExecChain(n, stdin) == Run(if n.left.Node? then ["[Return] " + n.left.token.value + "\n"] else [], stdin)
  {
  }

  /**
   * An `if`, `while` or function definition never ends the chain it sits in,
   * whatever its body does: a `return` in the body ends only the body's run.
   */
  lemma BodyReturnStaysInside(n: Ast, stdin: string)
    requires n.Node? && (n.nodeType == IfStatement || n.nodeType == WhileLoop || n.nodeType == FuncDef)
    ensures var st := ExecNode(n, stdin);
      !st.returned && ExecChain(n, stdin) == Then(st.out, ExecChain(n.next, st.stdin))
  {
  }

  function Leaf(v: string): Ast { CreateNode(Expression, Token(Number, v)) }

  /** `if 1 { return a; print b } print c` prints `[Return] a` and then `c`. */
  lemma NestedReturnExample(stdin: string)
    ensures var body := Node(Return, Token(Keyword, "return"), Leaf("a"), Null,
        Node(Print, Token(Keyword, "print"), Leaf("b"), Null, Null, Null), Null);
      var after := Node(Print, Token(Keyword, "print"), Leaf("c"), Null, Null, Null);
      var prog := Node(IfStatement, Token(Keyword, "if"), Leaf("1"), Null, after, body);
      ExecuteProgram(prog, stdin) == Run(["[Return] a\n", "c\n"], stdin)
  {
    var body := Node(Return, Token(Keyword, "return"), Leaf("a"), Null,
      Node(Print, Token(Keyword, "print"), Leaf("b"), Null, Null, Null), Null);
    var after := Node(Print, Token(Keyword, "print"), Leaf("c"), Null, Null, Null);
    var prog := Node(IfStatement, Token(Keyword, "if"), Leaf("1"), Null, after, body);
    assert IsTrue(prog.left);
    assert "[Return] " + "a" + "\n" == "[Return] a\n";
    assert "c" + "\n" == "c\n";
    assert ExecChain(body, stdin) == Run(["[Return] a\n"], stdin);
    assert ExecChain(after, stdin) == Run(["c\n"], stdin);
  }

  /**
   * A `while` behaves exactly as an `if` with the same condition and body:
   * its body runs once when the condition text is `1`, and not at all otherwise.
   */
  lemma WhileRunsAtMostOnce(n: Ast, stdin: string)
    requires n.Node?
    ensures ExecChain(n.(nodeType := WhileLoop), stdin) == ExecChain(n.(nodeType := IfStatement), stdin)
    ensures var st := ExecNode(n.(nodeType := WhileLoop), stdin);
      if IsTrue(n.left) then st == Step(ExecChain(n.body, stdin).out, ExecChain(n.body, stdin).stdin, false)
      else st == Step([], stdin, false)
  {
  }

  /** A node's own work does not depend on what follows it. */
  lemma NodeIgnoresNext(n: Ast, stdin: string)
    requires n.Node?
    ensures ExecNode(n.(next := Null), stdin) == ExecNode(n, stdin)
  {
  }

  /** The nodes of a list one after the other, stopping after the first `return`. */
  function ExecList(nodes: seq<Ast>, stdin: string): Run {
    if nodes == [] then Run([], stdin)
    else if nodes[0].Null? then ExecList(nodes[1..], stdin)
    else
      var st := ExecNode(nodes[0], stdin);
      if st.returned then Run(st.out, st.stdin) else Then(st.out, ExecList(nodes[1..], st.stdin))
  }

  /** `execute` handles the nodes of a chain in `next` order, each once. */
  lemma {:induction false} ChainInOrder(n: Ast, stdin: string)
    ensures ExecChain(n, stdin) == ExecList(ChainList(n), stdin)
  {
    if n.Node? {
      NodeIgnoresNext(n, stdin);
      var st := ExecNode(n, stdin);
      var list := ChainList(n);
      assert list[0] == n.(next := Null) && list[1..] == ChainList(n.next);
      ChainInOrder(n.next, st.stdin);
    }
  }

  /** Some node reachable from `n` reads a line. */
  predicate HasInput(n: Ast) {
    n.Node? && (n.nodeType == Input || HasInput(n.left) || HasInput(n.right) || HasInput(n.body) || HasInput(n.next))
  }

  /**
   * The executor keeps no state of its own: a tree without input statements
   * reads nothing, and what it prints does not depend on standard input.
   */
  lemma {:induction false} NoInputReadsNothing(n: Ast, stdin: string, other: string)
    requires !HasInput(n)
    ensures ExecChain(n, stdin).stdin == stdin
    ensures ExecChain(n, stdin).out == ExecChain(n, other).out
    decreases n, 1
  {
    if n.Node? {
      NodeNoInput(n, stdin, other);
      NodeNoInput(n, other, stdin);
      NoInputReadsNothing(n.next, stdin, other);
    }
  }

  lemma {:induction false} NodeNoInput(n: Ast, stdin: string, other: string)
    requires n.Node? && !HasInput(n)
    ensures ExecNode(n, stdin).stdin == stdin
    ensures ExecNode(n, stdin).out == ExecNode(n, other).out
    ensures ExecNode(n, stdin).returned == ExecNode(n, other).returned
    decreases n, 0
  {
    NoInputReadsNothing(n.body, stdin, other);
  }

  /**
   * An input statement prints its prompt, reads one line and echoes it
   * without its newline; the rest of standard input is left for later.
   */
  lemma InputEcho(n: Ast, line: string, rest: string)
    requires n.Node? && n.nodeType == Input
    requires |line| < INPUT_SIZE - 1 && forall i :: 0 <= i < |line| ==> line[i] != '\n'
    ensures ExecNode(n, line + "\n" + rest) ==
      Step((if n.left.Node? then [n.left.token.value] else []) + ["[Input Received] " + line + "\n"], rest, false)
  {
    Stdio.FgetsLine(line, rest, INPUT_SIZE);
    var s := line + "\n";
    assert NewlineAt(s) == |line| by {
      assert s[|line|] == '\n';
    }
    assert UpToNewline(s) == line;
  }

  /**
   * A print statement echoes its operand's text verbatim; an empty print prints
   * nothing. Either way the rest of the chain runs from the same input.
   */
  lemma PrintVerbatim(n: Ast, stdin: string)
    requires n.Node? && n.nodeType == Print
    ensures ExecNode(n, stdin) == Step(if n.left.Node? then [n.left.token.value + "\n"] else [], stdin, false)
    ensures ExecChain(n, stdin) == Then(ExecNode(n, stdin).out, ExecChain(n.next, stdin))
    ensures ExecChain(n, stdin).stdin == ExecChain(n.next, stdin).stdin
  {
  }

  /** An assignment only prints; `(null)` stands in for a missing right-hand side. */
  lemma AssignOnlyPrints(n: Ast, stdin: string)
    requires n.Node? && n.nodeType == VarAssign
    ensures ExecNode(n, stdin) ==
      Step(["[Assign] " + n.token.value + " = " + (if n.right.Node? then n.right.token.value else "(null)") + "\n"], stdin, false)
    ensures ExecChain(n, stdin) == Then([ExecNode(n, stdin).out[0]], ExecChain(n.next, stdin))
  {
  }

  /**
   * Nothing is stored: taking an assignment out of a chain takes out exactly
   * its trace line and changes nothing the later nodes print or read.
   */
  lemma AssignRemoved(n: Ast, stdin: string)
    requires n.Node? && n.nodeType == VarAssign
    ensures var line := "[Assign] " + n.token.value + " = " + Operand(n.right) + "\n";
      ExecChain(n, stdin).out == [line] + ExecChain(n.next, stdin).out
      && ExecChain(n, stdin).stdin == ExecChain(n.next, stdin).stdin
  {
    AssignOnlyPrints(n, stdin);
  }

  /** A function definition prints its name and runs its body at once. */
  lemma FuncRunsAtOnce(n: Ast, stdin: string)
    requires n.Node? && n.nodeType == FuncDef
    ensures var r := ExecChain(n.body, stdin);
      ExecNode(n, stdin) == Step(["[Function Defined] " + n.token.value + "\n"] + r.out, r.stdin, false)
    ensures var r := ExecChain(n.body, stdin);
      ExecChain(n, stdin) == Then(["[Function Defined] " + n.token.value + "\n"] + r.out, ExecChain(n.next, r.stdin))
  {
  }
}
