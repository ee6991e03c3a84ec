/**
 * The interpreter of the Go runtime (src/go_runtime/runtime.go). It walks a
 * tree of `ASTNode`s, keeps integer variables in a package-level map and
 * prints one line per assignment. A `while` whose condition never becomes 0
 * runs forever; the model bounds it with `fuel`, the number of iterations each
 * loop may still run, one less for the loops inside its body.
 */
module GoRuntime {
  import opened Wrappers
  import opened GoLexer
  import Decimal

  /** `*ASTNode`: nil or a node with its three links. */
  datatype Ast = Nil | Node(token: Token, left: Ast, right: Ast, next: Ast)

  /** What `execute` returns: nil, an error, or (model only) an exhausted loop budget. */
  datatype Status = Done | Failed(err: string) | OutOfFuel

  /** The variables afterwards, the lines printed, and how the walk ended. */
  datatype Outcome = Outcome(vars: map<string, int>, out: seq<string>, status: Status)

  /** `evaluate`: a number literal or a defined variable; anything else is an error. */
  function Evaluate(n: Ast, vars: map<string, int>): (r: Result<int>)
    ensures r.Ok? ==> n.Node? && (n.token.kind == Number || n.token.kind == Identifier)
  {
    if n.Nil? then Err("nil node in expression")
    else if n.token.kind == Number then Decimal.Atoi(n.token.value)
    else if n.token.kind == Identifier then
      if n.token.value in vars then Ok(vars[n.token.value])
      else Err("undefined variable: " + n.token.value)
    else Err("invalid token in expression: " + n.token.value)
  }

  /** The line `Printf("%s = %d\n", ...)` writes. */
  function AssignLine(name: string, value: int): string {
    name + " = " + Decimal.IntToString(value) + "\n"
  }

  /** `executeAssignment`. */
  function Assign(n: Ast, vars: map<string, int>): Outcome
    requires n.Node?
  {
    match Evaluate(n.right, vars)
    case Err(e) => Outcome(vars, [], Failed(e))
    case Ok(v) => Outcome(vars[n.token.value := v], [AssignLine(n.token.value, v)], Done)
  }

  predicate IsKeywordNode(n: Ast, w: string) { n.Node? && n.token.kind == Keyword && n.token.value == w }

  /** `execute`. */
  function Exec(n: Ast, vars: map<string, int>, fuel: nat): Outcome
    decreases fuel, n, 1
  {
    if n.Nil? then Outcome(vars, [], Done)
    else if n.token.kind == Identifier then Assign(n, vars)
    else if IsKeywordNode(n, "if") then ExecIf(n, vars, fuel)
    else if IsKeywordNode(n, "while") then ExecWhile(n, vars, fuel)
    else Exec(n.next, vars, fuel)
  }

  /** `executeIf`. */
  function ExecIf(n: Ast, vars: map<string, int>, fuel: nat): Outcome
    requires n.Node?
    decreases fuel, n, 0
  {
    match Evaluate(n.left, vars)
    case Err(e) => Outcome(vars, [], Failed(e))
    case Ok(c) =>
      if c != 0 then Exec(n.right, vars, fuel)
      else if n.next.Node? then Exec(n.next, vars, fuel)
      else Outcome(vars, [], Done)
  }

  /** A walk that printed `out` before it went on as `r`. */
  function Prefix(out: seq<string>, r: Outcome): Outcome {
    Outcome(r.vars, out + r.out, r.status)
  }

  /** `executeWhile`, with at most `fuel` iterations. */
  function ExecWhile(n: Ast, vars: map<string, int>, fuel: nat): Outcome
    requires n.Node?
    decreases fuel, n, 0
  {
    match Evaluate(n.left, vars)
    case Err(e) => Outcome(vars, [], Failed(e))
    case Ok(c) =>
      if c == 0 then Outcome(vars, [], Done)
      else if fuel == 0 then Outcome(vars, [], OutOfFuel)
      else
        var body := Exec(n.right, vars, fuel - 1);
        if !body.status.Done? then body
        else Prefix(body.out, ExecWhile(n, body.vars, fuel - 1))
  }

  lemma PrefixPrefix(a: seq<string>, b: seq<string>, r: Outcome)
    ensures Prefix(a, Prefix(b, r)) == Prefix(a + b, r)
  {
    assert a + (b + r.out) == (a + b) + r.out;
  }

  /** One turn of the loop whose condition holds. */
  lemma WhileIteration(n: Ast, vars: map<string, int>, fuel: nat)
    requires n.Node? && Evaluate(n.left, vars).Ok? && Evaluate(n.left, vars).value != 0 && fuel > 0
    ensures var body := Exec(n.right, vars, fuel - 1);
      ExecWhile(n, vars, fuel) == if !body.status.Done? then body else Prefix(body.out, ExecWhile(n, body.vars, fuel - 1))
  {
  }

  /** The line `Println("Runtime Error:", err)` writes. */
  function ErrorLine(err: string): string { "Runtime Error: " + err + "\n" }

  /** `run`: a fresh variable map, then the walk, then the error if there was one. */
  function RunProgram(ast: Ast, fuel: nat): Outcome {
    var r := Exec(ast, map[], fuel);
    if r.status.Failed? then Outcome(r.vars, r.out + [ErrorLine(r.status.err)], r.status) else r
  }

  /** The package state: the `variables` map and what has gone to standard output. */
  class Runtime {
    var variables: map<string, int>
    var out: seq<string>

    constructor ()
      ensures variables == map[] && out == []
    {
      variables := map[];
      out := [];
    }

    /** `run`. */
    method Run(ast: Ast, fuel: nat) returns (status: Status)
      modifies this
      ensures var r := RunProgram(ast, fuel);
        variables == r.vars && out == old(out) + r.out && status == r.status
    {
      variables := map[];
      status := Execute(ast, fuel);
      if status.Failed? {
        out := out + [ErrorLine(status.err)];
      }
    }

    /** `execute`. */
    method Execute(node: Ast, fuel: nat) returns (status: Status)
      modifies this
      ensures var r := Exec(node, old(variables), fuel);
        variables == r.vars && out == old(out) + r.out && status == r.status
      decreases fuel, node, 1
    {
      if node.Nil? {
        return Done;
      }
      if node.token.kind == Identifier {
        status := ExecuteAssignment(node);
        return;
      }
      if node.token.kind == Keyword {
        if node.token.value == "if" {
          status := ExecuteIf(node, fuel);
          return;
        } else if node.token.value == "while" {
          status := ExecuteWhile(node, fuel);
          return;
        }
      }
      status := Execute(node.next, fuel);
    }

    /** `executeAssignment`. */
    method ExecuteAssignment(node: Ast) returns (status: Status)
      requires node.Node?
      modifies this
      ensures var r := Assign(node, old(variables));
        variables == r.vars && out == old(out) + r.out && status == r.status
    {
      var name := node.token.value;
      var value := Evaluate(node.right, variables);
      if value.Err? {
        return Failed(value.message);
      }
      variables := variables[name := value.value];
      out := out + [AssignLine(name, value.value)];
      return Done;
    }

    /** `executeIf`. */
    method ExecuteIf(node: Ast, fuel: nat) returns (status: Status)
      requires node.Node?
      modifies this
      ensures var r := ExecIf(node, old(variables), fuel);
        variables == r.vars && out == old(out) + r.out && status == r.status
      decreases fuel, node, 0
    {
      var condition := Evaluate(node.left, variables);
      if condition.Err? {
        return Failed(condition.message);
      }
      if condition.value != 0 {
        status := Execute(node.right, fuel);
      } else if node.next.Node? {
        status := Execute(node.next, fuel);
      } else {
        status := Done;
      }
    }

    /** `executeWhile`: the `for` loop, which gives up when the budget runs out. */
    method ExecuteWhile(node: Ast, fuel: nat) returns (status: Status)
      requires node.Node?
      modifies this
      ensures var r := ExecWhile(node, old(variables), fuel);
        variables == r.vars && out == old(out) + r.out && status == r.status
      decreases fuel, node, 0
    {
      ghost var vars0, out0 := variables, out;
      ghost var done: seq<string> := [];
      var f: nat := fuel;
      while true
        invariant f <= fuel && out == out0 + done
        invariant ExecWhile(node, vars0, fuel) == Prefix(done, ExecWhile(node, variables, f))
        decreases f
      {
        var condition := Evaluate(node.left, variables);
        if condition.Err? {
          return Failed(condition.message);
        }
        if condition.value == 0 {
          break;
        }
        if f == 0 {
          return OutOfFuel;
        }
        ghost var before := variables;
        WhileIteration(node, before, f);
        status := Execute(node.right, f - 1);
        if !status.Done? {
          return;
        }
        ghost var body := Exec(node.right, before, f - 1);
        PrefixPrefix(done, body.out, ExecWhile(node, variables, f - 1));
        done := done + body.out;
        f := f - 1;
      }
      return Done;
    }
  }
}
