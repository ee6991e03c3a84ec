/**
 * The tree walker of the C pipeline (src/c_core/executor.c). It keeps no
 * variables: it prints token texts and reads lines. What it prints is a list
 * of the strings each `printf` writes, and standard input is the text still
 * to be read.
 */
module CExecutor {
  import opened CTokens
  import opened CParser
  import Stdio

  /** Room for an answer: `char buffer[256]`. */
  const INPUT_SIZE: nat := 256

  /** What a run printed and what it left of standard input. */
  datatype Run = Run(out: seq<string>, stdin: string)

  /** One node's share of a run, and whether it was a `return`. */
  datatype Step = Step(out: seq<string>, stdin: string, returned: bool)

  /** The condition test of `if` and `while`: a condition whose text is exactly `1`. */
  predicate IsTrue(cond: Ast) { cond.Node? && cond.token.value == "1" }

  /** `strcspn(s, "\n")`: the index of the first newline, or the length. */
  function NewlineAt(s: string): (k: nat)
    ensures k <= |s| && (k == |s| || s[k] == '\n')
    ensures forall j :: 0 <= j < k ==> s[j] != '\n'
  {
    if s == [] || s[0] == '\n' then 0 else 1 + NewlineAt(s[1..])
  }

  /** `buffer[strcspn(buffer, "\n")] = '\0'`: the text before the first newline. */
  function UpToNewline(s: string): (r: string)
    ensures |r| <= |s| && r == s[..|r|]
    ensures forall i :: 0 <= i < |r| ==> r[i] != '\n'
    ensures |r| == |s| || s[|r|] == '\n'
  {
    s[..NewlineAt(s)]
  }

  function Operand(n: Ast): string {
    if n.Node? then n.token.value else "(null)"
  }

  /** What the `switch` does for one node. */
  function ExecNode(n: Ast, stdin: string): Step
    requires n.Node?
    decreases n, 0
  {
    match n.nodeType
    case Print =>
      Step(if n.left.Node? then [n.left.token.value + "\n"] else [], stdin, false)
    case Return =>
      Step(if n.left.Node? then ["[Return] " + n.left.token.value + "\n"] else [], stdin, true)
    case VarAssign =>
      Step(["[Assign] " + n.token.value + " = " + Operand(n.right) + "\n"], stdin, false)
    case IfStatement =>
      if IsTrue(n.left) then var r := ExecChain(n.body, stdin); Step(r.out, r.stdin, false)
      else Step([], stdin, false)
    case WhileLoop =>
      if IsTrue(n.left) then var r := ExecChain(n.body, stdin); Step(r.out, r.stdin, false)
      else Step([], stdin, false)
    case FuncDef =>
      var r := ExecChain(n.body, stdin);
      Step(["[Function Defined] " + n.token.value + "\n"] + r.out, r.stdin, false)
    case Input =>
      var (line, rest) := Stdio.Fgets(stdin, INPUT_SIZE);
      Step((if n.left.Node? then [n.left.token.value] else []) + ["[Input Received] " + UpToNewline(line) + "\n"],
        rest, false)
    case _ =>
      Step([], stdin, false)
  }

  /** `execute`: the nodes of the chain in `next` order, up to and including a `return`. */
  function ExecChain(n: Ast, stdin: string): Run
    decreases n, 1
  {
    if n.Null? then Run([], stdin)
    else
      var st := ExecNode(n, stdin);
      if st.returned then Run(st.out, st.stdin)
      else var r := ExecChain(n.next, st.stdin); Run(st.out + r.out, r.stdin)
  }

  /** `execute_program`. */
  function ExecuteProgram(ast: Ast, stdin: string): Run {
    ExecChain(ast, stdin)
  }

  /** A run whose output starts with `out`. */
  function Then(out: seq<string>, r: Run): Run {
    Run(out + r.out, r.stdin)
  }

  /** One turn of the chain loop. */
  lemma ChainStep(n: Ast, stdin: string)
    requires n.Node?
    ensures var st := ExecNode(n, stdin);
      ExecChain(n, stdin) == if st.returned then Run(st.out, st.stdin) else Then(st.out, ExecChain(n.next, st.stdin))
  {
  }

  /** `execute`, as the C loop runs it. */
  method Execute(node0: Ast, stdin0: string) returns (out: seq<string>, stdin: string)
    ensures Run(out, stdin) == ExecChain(node0, stdin0)
    decreases Size(node0), 2
  {
    var node := node0;
    out, stdin := [], stdin0;
    while node.Node?
      invariant Size(node) <= Size(node0)
      invariant ExecChain(node0, stdin0) == Then(out, ExecChain(node, stdin))
      decreases Size(node)
    {
      var returned;
      out, stdin, returned := ExecuteTurn(node, out, stdin);
      if returned {
        return;
      }
      node := node.next;
    }
    assert out + [] == out;
  }

  /** One turn of the loop: run the node and add what it printed. */
  method ExecuteTurn(node: Ast, out0: seq<string>, stdin0: string) returns (out: seq<string>, stdin: string, returned: bool)
    requires node.Node?
    ensures returned ==> Then(out0, ExecChain(node, stdin0)) == Run(out, stdin)
    ensures !returned ==> Then(out0, ExecChain(node, stdin0)) == Then(out, ExecChain(node.next, stdin))
    decreases Size(node), 1
  {
    var o;
    o, stdin, returned := ExecuteNode(node, stdin0);
    ChainStep(node, stdin0);
    assert (out0 + o) + ExecChain(node.next, stdin).out == out0 + (o + ExecChain(node.next, stdin).out);
    out := out0 + o;
  }

  /** The `switch` of `execute` for one node, calling `execute` for bodies. */
  method ExecuteNode(node: Ast, stdin0: string) returns (out: seq<string>, stdin: string, returned: bool)
    requires node.Node?
    ensures Step(out, stdin, returned) == ExecNode(node, stdin0)
    decreases Size(node), 0
  {
    out, stdin, returned := [], stdin0, false;
    match node.nodeType {
      case Print =>
        if node.left.Node? {
          out := out + [node.left.token.value + "\n"];
        }
      case Return =>
        if node.left.Node? {
          out := out + ["[Return] " + node.left.token.value + "\n"];
        }
        returned := true;
      case VarAssign =>
        if node.right.Node? {
          out := out + ["[Assign] " + node.token.value + " = " + node.right.token.value + "\n"];
        } else {
          out := out + ["[Assign] " + node.token.value + " = " + "(null)" + "\n"];
        }
      case IfStatement =>
        if node.left.Node? && node.left.token.value == "1" {
          out, stdin := Execute(node.body, stdin);
        }
      case WhileLoop =>
        if node.left.Node? && node.left.token.value == "1" {
          out, stdin := Execute(node.body, stdin);
        }
      case FuncDef =>
        out := out + ["[Function Defined] " + node.token.value + "\n"];
        var o;
        o, stdin := Execute(node.body, stdin);
        out := out + o;
      case Input =>
        if node.left.Node? {
          out := out + [node.left.token.value];
        }
        var read := Stdio.Fgets(stdin, INPUT_SIZE);
        var buffer := read.0;
        stdin := read.1;
        buffer := Truncate(buffer);
        out := out + ["[Input Received] " + buffer + "\n"];
      case _ =>
    }
  }

  /** `buffer[strcspn(buffer, "\n")] = '\0'`, as a scan for the newline. */
  method Truncate(buffer: string) returns (r: string)
    ensures r == UpToNewline(buffer)
  {
    var i := 0;
    while i < |buffer| && buffer[i] != '\n'
      invariant 0 <= i <= |buffer|
      invariant forall j :: 0 <= j < i ==> buffer[j] != '\n'
      decreases |buffer| - i
    {
      i := i + 1;
    }
    r := buffer[..i];
  }
}
