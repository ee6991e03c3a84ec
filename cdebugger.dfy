/**
 * The unused-import check of the C pipeline (src/c_core/debugger.c). The
 * operator's answers are the text still to be read from standard input, and
 * `exit(1)` is the `aborted` flag of the result.
 */
module CDebugger {
  import opened CTokens
  import opened CParser
  import Stdio

  /** A node whose token counts as a use of `name`; an import directive never uses itself. */
  predicate Uses(n: Ast, name: string)
    ensures Uses(n, name) ==> n.Node? && !IsImportToken(n.token) && n.token.value == name
  {
    n.Node? && (n.token.kind == Identifier || n.token.kind == Keyword) && n.token.value == name
  }

  /** `isImportUsed`: a search over left, right, body and next, in that order. */
  function IsImportUsed(node: Ast, name: string): bool {
    node.Node? &&
    (Uses(node, name) ||
     IsImportUsed(node.left, name) || IsImportUsed(node.right, name) ||
     IsImportUsed(node.body, name) || IsImportUsed(node.next, name))
  }

  datatype Dir = Left | Right | Body | Next

  function Child(n: Ast, d: Dir): Ast
    requires n.Node?
  {
    match d
    case Left => n.left
    case Right => n.right
    case Body => n.body
    case Next => n.next
  }

  /** The node reached from `n` along `path`, or NULL once a link is missing. */
  function Follow(n: Ast, path: seq<Dir>): Ast
    decreases |path|
  {
    if path == [] || n.Null? then n else Follow(Child(n, path[0]), path[1..])
  }

  predicate IsImportToken(t: Token) { t.kind == Import || t.kind == ImportFromC }

  /** Room for the answer: `char response[10]`. */
  const RESPONSE_SIZE: nat := 10

  const ABORT_LINE: string := "Compilation aborted due to unused import.\n"
  const PROMPT: string := "Continue compilation? [Y/n]: "

  const WARNING: string := "[DebuggerWarning] Unused import: "

  /** The warning for import `v`: the name is the text between the fixed prefix and the newline. */
  function WarnLine(v: string): (w: string)
    ensures |w| == |WARNING| + |v| + 1
    ensures w[..|WARNING|] == WARNING && w[|WARNING|..|w| - 1] == v && w[|w| - 1] == '\n'
  {
    WARNING + v + "\n"
  }

  /**
   * An answer that stops the compilation: its first character is `n` or `N`.
   * An empty line, or one starting with `y` or `Y`, continues.
   */
  predicate Refuses(answer: string)
    ensures Refuses(answer) ==> |answer| > 0
    ensures |answer| > 0 && (answer[0] == '\n' || answer[0] == 'y' || answer[0] == 'Y') ==> !Refuses(answer)
  {
    |answer| > 0 && (answer[0] == 'n' || answer[0] == 'N')
  }

  /** What the check prints, what it leaves of standard input, and whether it exits. */
  datatype Check = Check(out: seq<string>, stdin: string, aborted: bool)

  /** The loop of `debuggerCheck` from token `i` on. */
  function CheckFrom(toks: seq<Token>, i: nat, root: Ast, stdin: string): Check
    requires i <= |toks|
    decreases |toks| - i
  {
    if i == |toks| then Check([], stdin, false)
    else if IsImportToken(toks[i]) && !IsImportUsed(root, toks[i].value) then
      var (answer, rest) := Stdio.Fgets(stdin, RESPONSE_SIZE);
      var warning := [WarnLine(toks[i].value), PROMPT];
      if Refuses(answer) then Check(warning + [ABORT_LINE], rest, true)
      else
        var c := CheckFrom(toks, i + 1, root, rest);
        Check(warning + c.out, c.stdin, c.aborted)
    else CheckFrom(toks, i + 1, root, stdin)
  }

  /** `debuggerCheck(tokens, token_count, root)` over the first `token_count` tokens. */
  function DebuggerCheck(toks: seq<Token>, root: Ast, stdin: string): Check {
    CheckFrom(toks, 0, root, stdin)
  }

  /** `isImportUsed`, as the C code runs it. */
  method IsImportUsedRec(node: Ast, name: string) returns (used: bool)
    ensures used == IsImportUsed(node, name)
  {
    if node.Null? {
      return false;
    }
    if (node.token.kind == Identifier || node.token.kind == Keyword) && node.token.value == name {
      return true;
    }
    used := IsImportUsedRec(node.left, name);
    if !used {
      used := IsImportUsedRec(node.right, name);
    }
    if !used {
      used := IsImportUsedRec(node.body, name);
    }
    if !used {
      used := IsImportUsedRec(node.next, name);
    }
  }

  /** `debuggerCheck`: the `for` loop over the tokens. */
  method RunCheck(toks: seq<Token>, root: Ast, stdin0: string) returns (out: seq<string>, stdin: string, aborted: bool)
    ensures Check(out, stdin, aborted) == DebuggerCheck(toks, root, stdin0)
  {
    out, stdin := [], stdin0;
    for i := 0 to |toks|
      invariant DebuggerCheck(toks, root, stdin0) == Prefixed(out, CheckFrom(toks, i, root, stdin))
    {
      var stop;
      out, stdin, stop := CheckToken(toks, i, root, out, stdin);
      if stop {
        return out, stdin, true;
      }
    }
    assert out + [] == out;
    return out, stdin, false;
  }

  /** One pass of the loop body: warn about an unused import and ask whether to go on. */
  method CheckToken(toks: seq<Token>, i: nat, root: Ast, out0: seq<string>, stdin0: string)
    returns (out: seq<string>, stdin: string, stop: bool)
    requires i < |toks|
    ensures stop ==> Prefixed(out0, CheckFrom(toks, i, root, stdin0)) == Check(out, stdin, true)
    ensures !stop ==> Prefixed(out0, CheckFrom(toks, i, root, stdin0)) == Prefixed(out, CheckFrom(toks, i + 1, root, stdin))
  {
    out, stdin, stop := out0, stdin0, false;
    if toks[i].kind == Import || toks[i].kind == ImportFromC {
      var used := IsImportUsedRec(root, toks[i].value);
      if !used {
        var warning := WarnLine(toks[i].value);
        out := out + [warning];
        out := out + [PROMPT];
        var read := Stdio.Fgets(stdin, RESPONSE_SIZE);
        var response := read.0;
        stdin := read.1;
        var c := CheckFrom(toks, i + 1, root, stdin);
        assert out == out0 + [warning, PROMPT];
        if |response| > 0 && (response[0] == 'n' || response[0] == 'N') {
          out := out + [ABORT_LINE];
          assert out == out0 + ([warning, PROMPT] + [ABORT_LINE]);
          return out, stdin, true;
        }
        assert out + c.out == out0 + ([warning, PROMPT] + c.out);
      }
    }
  }

  function Prefixed(out: seq<string>, c: Check): Check {
    Check(out + c.out, c.stdin, c.aborted)
  }

  // ---------------------------------------------------------------------
  // Properties.

  /**
   * `isImportUsed(root, name)` holds exactly when some node reachable from
   * `root` through left, right, body and next links holds an identifier or
   * keyword token spelled `name`; NULL uses nothing, and a number, operator
   * or import token never counts.
   */
  lemma UsedIffReachable(root: Ast, name: string)
    ensures IsImportUsed(Null, name) == false
    ensures IsImportUsed(root, name) <==> exists path :: Uses(Follow(root, path), name)
  {
    if IsImportUsed(root, name) {
      var path := UsePath(root, name);
      assert Uses(Follow(root, path), name);
      assert exists p :: Uses(Follow(root, p), name);
    } else {
      forall path | true ensures !Uses(Follow(root, path), name) {
        if Uses(Follow(root, path), name) {
          PathUse(root, name, path);
        }
      }
    }
  }

  /** A path to a use, built by the search itself. */
  lemma {:induction false} UsePath(n: Ast, name: string) returns (path: seq<Dir>)
    requires IsImportUsed(n, name)
    ensures Uses(Follow(n, path), name)
  {
    if Uses(n, name) {
      path := [];
    } else {
      var d := if IsImportUsed(n.left, name) then Left
        else if IsImportUsed(n.right, name) then Right
        else if IsImportUsed(n.body, name) then Body
        else Next;
      var rest := UsePath(Child(n, d), name);
      path := [d] + rest;
      assert path[1..] == rest;
    }
  }

  lemma {:induction false} PathUse(n: Ast, name: string, path: seq<Dir>)
    requires Uses(Follow(n, path), name)
    ensures IsImportUsed(n, name)
    decreases |path|
  {
    if path != [] && n.Node? {
      PathUse(Child(n, path[0]), name, path[1..]);
    }
  }

  /** The values of the import tokens from `i` on that nothing in `root` uses, in token order. */
  function UnusedFrom(toks: seq<Token>, i: nat, root: Ast): seq<string>
    requires i <= |toks|
    decreases |toks| - i
  {
    if i == |toks| then
      []
    else
      (if IsImportToken(toks[i]) && !IsImportUsed(root, toks[i].value) then [toks[i].value] else [])
      + UnusedFrom(toks, i + 1, root)
  }

  /** The first `k` answers one `fgets` after another reads. */
  function Answers(stdin: string, k: nat): seq<string> {
    if k == 0 then [] else
      var (a, rest) := Stdio.Fgets(stdin, RESPONSE_SIZE);
      [a] + Answers(rest, k - 1)
  }

  /** What standard input holds after `k` answers. */
  function AfterAnswers(stdin: string, k: nat): string {
    if k == 0 then stdin else AfterAnswers(Stdio.Fgets(stdin, RESPONSE_SIZE).1, k - 1)
  }

  /** The index of the first refusing answer, or the number of answers. */
  function FirstRefusal(answers: seq<string>): (j: nat)
    ensures j <= |answers|
    ensures j < |answers| ==> Refuses(answers[j])
    ensures forall k :: 0 <= k < j ==> !Refuses(answers[k])
  {
    if answers == [] then 0 else if Refuses(answers[0]) then 0 else 1 + FirstRefusal(answers[1..])
  }

  /** The warning and the question printed for each import, in order. */
  function Warnings(names: seq<string>): seq<string> {
    if names == [] then [] else [WarnLine(names[0]), PROMPT] + Warnings(names[1..])
  }

  /** The outcome `CheckFrom` promises, for the unused imports `u` and answers from `stdin`. */
  predicate Outcome(u: seq<string>, stdin: string, r: Check) {
    var j := FirstRefusal(Answers(stdin, |u|));
    (r.aborted <==> j < |u|) &&
    (j < |u| ==> r.out == Warnings(u[..j + 1]) + [ABORT_LINE] && r.stdin == AfterAnswers(stdin, j + 1)) &&
    (j == |u| ==> r.out == Warnings(u) && r.stdin == AfterAnswers(stdin, |u|))
  }

  /**
   * The check warns about each unused import in token order, reading one
   * answer per warning; it stops with the abort message at the first answer
   * that starts with `n` or `N`, and otherwise finishes without aborting
   * after warning about every unused import.
   */
  lemma {:induction false} CheckOutcome(toks: seq<Token>, i: nat, root: Ast, stdin: string)
    requires i <= |toks|
    ensures Outcome(UnusedFrom(toks, i, root), stdin, CheckFrom(toks, i, root, stdin))
    decreases |toks| - i
  {
    if i < |toks| {
      var t := toks[i];
      if IsImportToken(t) && !IsImportUsed(root, t.value) {
        var rest := Stdio.Fgets(stdin, RESPONSE_SIZE).1;
        CheckOutcome(toks, i + 1, root, rest);
        WarnStep(toks, i, root, stdin);
      } else {
        CheckOutcome(toks, i + 1, root, stdin);
        assert UnusedFrom(toks, i, root) == UnusedFrom(toks, i + 1, root);
      }
    }
  }

  /** One unused import: its warning goes in front of what the rest of the check does. */
  lemma WarnStep(toks: seq<Token>, i: nat, root: Ast, stdin: string)
    requires i < |toks| && IsImportToken(toks[i]) && !IsImportUsed(root, toks[i].value)
    requires Outcome(UnusedFrom(toks, i + 1, root), Stdio.Fgets(stdin, RESPONSE_SIZE).1,
      CheckFrom(toks, i + 1, root, Stdio.Fgets(stdin, RESPONSE_SIZE).1))
    ensures Outcome(UnusedFrom(toks, i, root), stdin, CheckFrom(toks, i, root, stdin))
  {
    var v := toks[i].value;
    var u' := UnusedFrom(toks, i + 1, root);
    assert UnusedFrom(toks, i, root) == [v] + u';
    var (answer, rest) := Stdio.Fgets(stdin, RESPONSE_SIZE);
    var c := CheckFrom(toks, i + 1, root, rest);
    var warning := [WarnLine(v), PROMPT];
    if Refuses(answer) {
      assert CheckFrom(toks, i, root, stdin) == Check(warning + [ABORT_LINE], rest, true);
      RefusedFirst(v, u', stdin);
    } else {
      assert CheckFrom(toks, i, root, stdin) == Check(warning + c.out, c.stdin, c.aborted);
      AcceptedFirst(v, u', stdin, c);
    }
  }

  lemma RefusedFirst(v: string, u': seq<string>, stdin: string)
    requires Refuses(Stdio.Fgets(stdin, RESPONSE_SIZE).0)
    ensures Outcome([v] + u', stdin,
      Check([WarnLine(v), PROMPT, ABORT_LINE], Stdio.Fgets(stdin, RESPONSE_SIZE).1, true))
  {
    var u := [v] + u';
    var (answer, rest) := Stdio.Fgets(stdin, RESPONSE_SIZE);
    assert Answers(stdin, |u|) == [answer] + Answers(rest, |u'|);
    assert u[..1] == [v];
    assert Warnings([v]) == [WarnLine(v), PROMPT];
  }

  lemma AcceptedFirst(v: string, u': seq<string>, stdin: string, c: Check)
    requires !Refuses(Stdio.Fgets(stdin, RESPONSE_SIZE).0)
    requires Outcome(u', Stdio.Fgets(stdin, RESPONSE_SIZE).1, c)
    ensures Outcome([v] + u', stdin, Check([WarnLine(v), PROMPT] + c.out, c.stdin, c.aborted))
  {
    var u := [v] + u';
    var (answer, rest) := Stdio.Fgets(stdin, RESPONSE_SIZE);
    var a := Answers(stdin, |u|);
    assert a == [answer] + Answers(rest, |u'|);
    assert a[1..] == Answers(rest, |u'|);
    var j' := FirstRefusal(Answers(rest, |u'|));
    assert FirstRefusal(a) == j' + 1;
    if j' < |u'| {
      LaterRefusal(v, u', j');
      assert AfterAnswers(stdin, j' + 2) == AfterAnswers(rest, j' + 1);
    } else {
      WarningsCons(v, u');
      assert AfterAnswers(stdin, |u|) == AfterAnswers(rest, |u'|);
    }
  }

  /** The warnings up to a later refusal, with the first import's in front. */
  lemma LaterRefusal(v: string, u': seq<string>, j': nat)
    requires j' < |u'|
    ensures Warnings(([v] + u')[..j' + 2]) == [WarnLine(v), PROMPT] + Warnings(u'[..j' + 1])
  {
    assert ([v] + u')[..j' + 2] == [v] + u'[..j' + 1];
    WarningsCons(v, u'[..j' + 1]);
  }

  lemma WarningsCons(v: string, names: seq<string>)
    ensures Warnings([v] + names) == [WarnLine(v), PROMPT] + Warnings(names)
  {
    assert ([v] + names)[1..] == names;
  }

  /** Without unused imports the check prints nothing, reads nothing and never aborts. */
  lemma AllUsedIsSilent(toks: seq<Token>, root: Ast, stdin: string)
    requires forall i :: 0 <= i < |toks| && IsImportToken(toks[i]) ==> IsImportUsed(root, toks[i].value)
    ensures DebuggerCheck(toks, root, stdin) == Check([], stdin, false)
  {
    NoUnused(toks, 0, root);
    CheckOutcome(toks, 0, root, stdin);
  }

  lemma {:induction false} NoUnused(toks: seq<Token>, i: nat, root: Ast)
    requires i <= |toks|
    requires forall k :: i <= k < |toks| && IsImportToken(toks[k]) ==> IsImportUsed(root, toks[k].value)
    ensures UnusedFrom(toks, i, root) == []
    decreases |toks| - i
  {
    if i < |toks| {
      NoUnused(toks, i + 1, root);
    }
  }
}
