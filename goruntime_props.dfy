/** What the Go interpreter does, stated over `Exec`. */
module GoRuntimeProperties {
  import opened Wrappers
  import opened GoLexer
  import opened GoRuntime
  import Decimal

  /** The ways `evaluate` fails: a nil node, a bad number, an undefined name, any other token. */
  lemma EvaluateErrors(n: Ast, vars: map<string, int>)
    ensures n.Nil? ==> Evaluate(n, vars) == Err("nil node in expression")
    ensures n.Node? && n.token.kind == Identifier && n.token.value !in vars ==>
      Evaluate(n, vars) == Err("undefined variable: " + n.token.value)
    ensures n.Node? && n.token.kind != Identifier && n.token.kind != Number ==>
      Evaluate(n, vars) == Err("invalid token in expression: " + n.token.value)
    ensures n.Node? && n.token.kind == Number ==> (Evaluate(n, vars).Err? <==> Decimal.Atoi(n.token.value).Err?)
  {
  }

  /**
   * `evaluate` succeeds exactly on a number it can read, giving its decimal
   * value, and on a defined variable, giving the value in the map.
   */
  lemma EvaluateValues(n: Ast, vars: map<string, int>, v: int)
    ensures Evaluate(n, vars) == Ok(v) <==>
      || (n.Node? && n.token.kind == Number && Decimal.Atoi(n.token.value) == Ok(v))
      || (n.Node? && n.token.kind == Identifier && n.token.value in vars && vars[n.token.value] == v)
    ensures n.Node? && n.token.kind == Number && |n.token.value| >= 1 && Decimal.AllDigits(n.token.value) ==>
      Evaluate(n, vars) == Ok(Decimal.DigitsValue(n.token.value))
  {
  }

  /** A number the lexer could have read back from an assignment line evaluates to that value. */
  lemma EvaluatePrinted(v: int, vars: map<string, int>)
    ensures Evaluate(Node(Token(Number, Decimal.IntToString(v)), Nil, Nil, Nil), vars) == Ok(v)
  {
    Decimal.IntRoundTrip(v);
  }

  /**
   * A successful assignment sets its own variable and leaves every other one
   * as it was; a failed one changes nothing and prints nothing.
   */
  lemma AssignOnlyItsName(n: Ast, vars: map<string, int>)
    requires n.Node?
    ensures var r := Assign(n, vars); var name := n.token.value;
      match Evaluate(n.right, vars)
      case Ok(v) =>
        && r.status == Done && r.out == [AssignLine(name, v)]
        && r.vars.Keys == vars.Keys + {name} && r.vars[name] == v
        && (forall k :: k in vars && k != name ==> r.vars[k] == vars[k])
      case Err(e) => r == Outcome(vars, [], Failed(e))
  {
  }

  /** The line an assignment prints reads `name = value`. */
  lemma AssignLineShape(name: string, v: int)
    ensures var line := AssignLine(name, v);
      line[..|name|] == name && line[|name|..|name| + 3] == " = " && line[|line| - 1] == '\n'
      && Decimal.Atoi(line[|name| + 3..|line| - 1]) == Ok(v)
  {
    var line := AssignLine(name, v);
    assert line[|name| + 3..|line| - 1] == Decimal.IntToString(v);
    Decimal.IntRoundTrip(v);
  }

  /** An assignment is the last thing its chain does: `execute` does not go on to `Next`. */
  lemma AssignmentEndsChain(n: Ast, vars: map<string, int>, fuel: nat)
    requires n.Node? && n.token.kind == Identifier
    ensures Exec(n, vars, fuel) == Assign(n, vars)
    ensures Exec(n, vars, fuel) == Exec(n.(next := Nil), vars, fuel)
  {
  }

  /** Any node that is not an identifier, `if` or `while` is passed over. */
  lemma OthersSkipped(n: Ast, vars: map<string, int>, fuel: nat)
    requires n.Node? && n.token.kind != Identifier && !IsKeywordNode(n, "if") && !IsKeywordNode(n, "while")
    ensures Exec(n, vars, fuel) == Exec(n.next, vars, fuel)
  {
  }

  /**
   * An `if` runs `Right` when its condition is non-zero and `Next` otherwise,
   * never both; a condition that cannot be evaluated ends the walk.
   */
  lemma IfEitherOr(n: Ast, vars: map<string, int>, fuel: nat)
    requires IsKeywordNode(n, "if")
    ensures Exec(n, vars, fuel) == match Evaluate(n.left, vars)
      case Err(e) => Outcome(vars, [], Failed(e))
      case Ok(c) => if c != 0 then Exec(n.right, vars, fuel) else Exec(n.next, vars, fuel)
  {
  }

  /** Nothing after a `while` ever runs. */
  lemma WhileEndsChain(n: Ast, vars: map<string, int>, fuel: nat)
    requires IsKeywordNode(n, "while")
    ensures Exec(n, vars, fuel) == Exec(n.(next := Nil), vars, fuel)
  {
    WhileIgnoresNext(n, n.(next := Nil), vars, fuel);
  }

  lemma {:induction false} WhileIgnoresNext(n: Ast, m: Ast, vars: map<string, int>, fuel: nat)
    requires n.Node? && m.Node? && n.left == m.left && n.right == m.right
    ensures ExecWhile(n, vars, fuel) == ExecWhile(m, vars, fuel)
    decreases fuel
  {
    if fuel > 0 {
      var body := Exec(n.right, vars, fuel - 1);
      WhileIgnoresNext(n, m, body.vars, fuel - 1);
    }
  }

  /** A loop that ends without error ends because its condition evaluated to 0. */
  lemma {:induction false} WhileDoneAtZero(n: Ast, vars: map<string, int>, fuel: nat)
    requires n.Node? && ExecWhile(n, vars, fuel).status == Done
    ensures Evaluate(n.left, ExecWhile(n, vars, fuel).vars) == Ok(0)
    decreases fuel
  {
    var c := Evaluate(n.left, vars);
    if c.Ok? && c.value != 0 {
      var body := Exec(n.right, vars, fuel - 1);
      WhileDoneAtZero(n, body.vars, fuel - 1);
    }
  }

  /**
   * An error stops the loop at once: a condition that cannot be evaluated
   * before any change, a failing body with the body's own outcome.
   */
  lemma WhileErrorStops(n: Ast, vars: map<string, int>, fuel: nat)
    requires n.Node?
    ensures Evaluate(n.left, vars).Err? ==>
      ExecWhile(n, vars, fuel) == Outcome(vars, [], Failed(Evaluate(n.left, vars).message))
    ensures (Evaluate(n.left, vars).Ok? && Evaluate(n.left, vars).value != 0 && fuel > 0 &&
      Exec(n.right, vars, fuel - 1).status.Failed?) ==> ExecWhile(n, vars, fuel) == Exec(n.right, vars, fuel - 1)
  {
  }

  /** More budget changes nothing about a walk that did not run out of it. */
  lemma {:induction false} ExecFuel(n: Ast, vars: map<string, int>, fuel: nat, more: nat)
    requires fuel <= more && Exec(n, vars, fuel).status != OutOfFuel
    ensures Exec(n, vars, more) == Exec(n, vars, fuel)
    decreases fuel, n, 1
  {
    if n.Node? && n.token.kind != Identifier {
      if IsKeywordNode(n, "if") {
        IfFuel(n, vars, fuel, more);
      } else if IsKeywordNode(n, "while") {
        WhileFuel(n, vars, fuel, more);
      } else {
        ExecFuel(n.next, vars, fuel, more);
      }
    }
  }

  lemma {:induction false} IfFuel(n: Ast, vars: map<string, int>, fuel: nat, more: nat)
    requires n.Node? && fuel <= more && ExecIf(n, vars, fuel).status != OutOfFuel
    ensures ExecIf(n, vars, more) == ExecIf(n, vars, fuel)
    decreases fuel, n, 0
  {
    var c := Evaluate(n.left, vars);
    if c.Ok? {
      if c.value != 0 {
        ExecFuel(n.right, vars, fuel, more);
      } else if n.next.Node? {
        ExecFuel(n.next, vars, fuel, more);
      }
    }
  }

  lemma {:induction false} WhileFuel(n: Ast, vars: map<string, int>, fuel: nat, more: nat)
    requires n.Node? && fuel <= more && ExecWhile(n, vars, fuel).status != OutOfFuel
    ensures ExecWhile(n, vars, more) == ExecWhile(n, vars, fuel)
    decreases fuel, n, 0
  {
    var c := Evaluate(n.left, vars);
    if c.Ok? && c.value != 0 {
      var body := Exec(n.right, vars, fuel - 1);
      ExecFuel(n.right, vars, fuel - 1, more - 1);
      if body.status.Done? {
        WhileFuel(n, body.vars, fuel - 1, more - 1);
      }
    }
  }

  function Leaf(kind: TokenType, v: string): Ast { Node(Token(kind, v), Nil, Nil, Nil) }

  /** `while x { x = 0 }` with `x` at 1 runs its body once and stops. */
  lemma OneTurnExample(fuel: nat)
    requires fuel >= 1
    ensures var body := Node(Token(Identifier, "x"), Nil, Leaf(Number, "0"), Nil);
      var loop := Node(Token(Keyword, "while"), Leaf(Identifier, "x"), body, Nil);
      Exec(loop, map["x" := 1], fuel) == Outcome(map["x" := 0], ["x = 0\n"], Done)
  {
    var body := Node(Token(Identifier, "x"), Nil, Leaf(Number, "0"), Nil);
    var loop := Node(Token(Keyword, "while"), Leaf(Identifier, "x"), body, Nil);
    assert Decimal.Atoi("0") == Ok(0) by {
      assert Decimal.DigitsValue("0") == 0 by {
        assert "0"[..0] == [];
      }
    }
    assert Decimal.IntToString(0) == "0";
    assert AssignLine("x", 0) == "x = 0\n";
    assert Exec(body, map["x" := 1], fuel - 1) == Outcome(map["x" := 0], ["x = 0\n"], Done);
    assert map["x" := 1]["x" := 0] == map["x" := 0];
    assert ExecWhile(loop, map["x" := 0], fuel - 1) == Outcome(map["x" := 0], [], Done);
  }

  /** `while 1 { }` never ends: whatever the budget, it is used up. */
  lemma {:induction false} SpinExample(vars: map<string, int>, fuel: nat)
    ensures ExecWhile(Node(Token(Keyword, "while"), Leaf(Number, "1"), Nil, Nil), vars, fuel).status == OutOfFuel
    decreases fuel
  {
    assert Decimal.Atoi("1") == Ok(1) by {
      assert Decimal.DigitsValue("1") == 1 by {
        assert "1"[..0] == [];
      }
    }
    if fuel > 0 {
      SpinExample(vars, fuel - 1);
    }
  }

  /** `run` starts from no variables, so reading one before assigning it is an error it prints. */
  lemma RunStartsEmpty(ast: Ast, fuel: nat)
    requires ast == Node(Token(Identifier, "y"), Nil, Leaf(Identifier, "x"), Nil)
    ensures RunProgram(ast, fuel) ==
      Outcome(map[], ["Runtime Error: undefined variable: x\n"], Failed("undefined variable: x"))
  {
    assert "undefined variable: " + "x" == "undefined variable: x";
    assert Evaluate(Leaf(Identifier, "x"), map[]) == Err("undefined variable: x");
    assert ErrorLine("undefined variable: x") == "Runtime Error: undefined variable: x\n";
  }

  /** `run` prints a line for an error and for nothing else that the walk does not print. */
  lemma RunReportsErrors(ast: Ast, fuel: nat)
    ensures var r := Exec(ast, map[], fuel);
      RunProgram(ast, fuel).out == r.out + (if r.status.Failed? then [ErrorLine(r.status.err)] else [])
    ensures RunProgram(ast, fuel).status == Exec(ast, map[], fuel).status
  {
  }
}
