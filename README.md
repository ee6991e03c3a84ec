# FreeSPL pipeline, modelled in Dafny

FreeSPL is a small scripting-language toolchain. Its C core reads a source
text with a byte scanner (`lex`). A token-cursor parser builds a tree of
nodes linked through `left`, `right`, `body` and `next`. An unused-import
check asks the operator whether to go on. A tree walker then prints what the
program says. The repository also has a second pipeline written in Go, an
older C lexer, and a few string and shuffle helpers. Each variant is modelled
as written, in its own module, and the variants are not merged.

| Dafny file | models |
|---|---|
| `ctokens.dfy` | the C token record and its ten token types (`src/c_core/token.h`) |
| `clexer.dfy`, `clexer_props.dfy` | the C scanner: keyword table, import directives, runs capped at 99 characters, line and column counters, the EOF sentinel, the static 1024-slot token array |
| `cparser.dfy`, `cparser_props.dfy` | the C parser: `createNode`, `parseExpression`, `parseStatement`, `parseBlock`, `parse`, `printAST` |
| `cdebugger.dfy` | `isImportUsed` and `debuggerCheck`, with the operator's answers read from standard input |
| `cexecutor.dfy`, `cexecutor_props.dfy` | `execute` and `execute_program`: the output trace, and the lines read for `input` |
| `golexer.dfy`, `golexer_props.dfy` | the Go `lex` and its character-class helpers |
| `goruntime.dfy`, `goruntime_props.dfy` | the Go interpreter: `run`, `execute`, `executeAssignment`, `executeIf`, `executeWhile`, `evaluate` |
| `gomath.dfy`, `arith.dfy` | Go `divide` and `modulo`, which truncate toward zero |
| `legacylexer.dfy`, `legacylexer_props.dfy` | the older C lexer (`src/lexer.c`, token types from `src/include/lexer.h`) |
| `utils.dfy`, `cstrings.dfy`, `decimal.dfy` | `string_duplicate`, `int_to_string`, `string_concat`, and the `strlen`/`strcpy`/`%d`/`strconv.Atoi` behaviour they rely on |
| `extrafunc.dfy` | `randomize`, `randomize_list`, `randomize_string` |
| `stdio.dfy`, `wrappers.dfy` | `fgets` on standard input, given as text; Option and Result |

Each imperative C or Go function is a Dafny `method` with the same loops and
branches. Its `ensures` ties the result to a pure function: `LexFrom`,
`ParseBlock`, `CheckFrom`, `ExecChain`, `Exec`, `Shuffle` and so on. The
lemmas state what the source promises about those functions. The static
token array of `lex` is the field of a class. The Go package-level
`variables` map and standard output are the fields of the class
`GoRuntime.Runtime`. The arrays that `randomize_list` and `randomize_string`
shuffle stay Dafny arrays.

I/O is made into values:
- Standard input is the text still to be read, and each `fgets` splits off what it reads.
- What a function prints is the list of strings its `printf` calls write.
- `rand()` is a given sequence of non-negative values, one per call.
- `exit(1)` in the import check is the `aborted` flag of its result.

Where the code and the language's design description disagree, the model
follows the code:
- **Keywords.** The design lists `break` and `loop` as keywords. The C table has eleven words without them; the Go slice has eight, without `func`, `print` and `input`.
- **Token array.** The design asks for an unbounded token buffer. `lex` writes into 1024 static slots with no bound check, so the model requires at most 1024 tokens.
- **Parser.** The design describes precedence climbing and fatal diagnostics. `parseExpression` takes one token of any kind and at most one operator pair. Errors are printed and parsing goes on. `parseBlock` loops forever on a statement that does not move the cursor; the model reports that as the outcome `Stuck`. A cursor that leaves the lexed tokens is the outcome `PastEnd`.
- **C executor.** The design describes an environment and expression evaluation. The C executor keeps no variables and prints token texts. Its `if` and `while` test whether the condition's text is exactly `1`, and a `while` body runs at most once.
- **Go undefined variables.** The Go interpreter reports an undefined variable as an error, where the design says it reads as 0.
- **Go unknown bytes.** The Go lexer builds an UNKNOWN token with `string(input[p])`. That converts the byte to the code point of the same value and encodes it in UTF-8, so a byte from 0x80 up becomes a two-byte value.
- **`AST_INPUT`.** `parseStatement` creates `AST_INPUT` nodes, but the enum in `src/c_core/parser.h` does not list it. The model adds it as a variant.
- **Go build.** `runtime.go` calls `strconv.Atoi` without importing `strconv`. `parse` in `main.go` calls a `parseBlock` that the Go code does not define. The model takes the functions as if the package built.

## Model

| member | source | states |
|---|---|---|
| CLexer.IsKeyword | src/c_core/lexer.c:17-24 | the table search answers true exactly for the words of the keyword table |
| CLexer.KeywordTable | src/c_core/lexer.c:12-15 | the keyword table holds exactly the eleven words `if` … `input`; `break` and `loop` are not keywords |
| CLexer.FindFrom | src/c_core/lexer.c:51 | the skip to the opening delimiter passes only other characters and stops on the delimiter when one follows |
| CLexer.ScanDirective | src/c_core/lexer.c:50-60 | what either directive branch does after its prefix: the value is the text after the first opening delimiter up to the closing one, at most 99 characters, and the scan moves forward, past the closing delimiter when it is next |
| CLexer.RunEnd | src/c_core/lexer.c:80 | a copying loop takes only characters of its class, at most its budget, and stops at the end, at the budget or at the first character outside the class |
| CLexer.ScanImport | src/c_core/lexer.c:48-75 | an import directive always moves the scan forward and stays within the input |
| CLexer.ScanStep | src/c_core/lexer.c:35-113 | one pass of the loop body always moves forward and never gives both a token and a diagnostic |
| CLexer.TokenBuffer.constructor | src/c_core/lexer.c:27 | the static array has 1024 slots |
| CLexer.TokenBuffer.Put | src/c_core/lexer.c:115 | `tokens[count++] = token` appends at `count` and leaves the later slots alone |
| CLexer.TokenBuffer.Consume | src/c_core/lexer.c:34-116 | one pass stores the token it scans after those already stored, adds the diagnostic it reports, and keeps the remaining scan equal to what the whole scan still owes |
| CLexer.TokenBuffer.Lex | src/c_core/lexer.c:26-125 | afterwards the first `count` slots are the scan's tokens, EOF sentinel included (so `count` counts it), the diagnostics are the scan's, and the slots after them are untouched |
| CLexer.LexFromStep | src/c_core/lexer.c:34-116 | the scan from a position is one step's output followed by the scan from where that step leaves off |
| CLexer.SilentStep | src/c_core/lexer.c:35-44 | a blank emits nothing, so the scan from it is the scan from the next position with the updated counters |
| CLexer.ScanOne | src/c_core/lexer.c:35-113 | the loop body computes the token or diagnostic, the new position and the new line and column of one step |
| CLexer.LexImport | src/c_core/lexer.c:48-75 | the two directive branches, `#import_from_c` tested first, give the import step's token and next position |
| CLexer.LexDirective | src/c_core/lexer.c:50-60 | one branch after its prefix skips to the opening delimiter, steps over it, copies up to the closing one and consumes it when it is next, as `ScanDirective` does |
| CLexer.SkipTo | src/c_core/lexer.c:51 | the skip loop stops where `FindFrom` says: at the first delimiter, or at the end |
| CLexer.CopyRun | src/c_core/lexer.c:78-93 | a copying loop gives the text of the run its class and the 99-character budget allow, and stops where the run ends |
| CLexer.ClosedAt | src/c_core/lexer.c:49-65 | where the scan meets `#import_from_c`, a `<` follows somewhere after the prefix; where it meets `#import` alone, a `"` follows; `while (*p && *p != d) p++; p++;` steps past the NUL otherwise |
| CLexer.ClosedFrom | src/c_core/lexer.c:34-116 | every position the scan visits from `p` on, stepping as the loop steps, meets `ClosedAt`; prefixes inside an import value or a run are not visited and impose nothing |
| CLexer.Next | src/c_core/lexer.c:34-113 | the position after one pass of the loop body: one past a blank, past the directive, past the capped run, or one past any other character; always forward and within the input |
| CLexer.LexFrom | src/c_core/lexer.c:34-123 | the tokens and diagnostics the loop produces from a position with given counters; there is at least one token (the sentinel) and at most one per remaining character plus it |
| CLexer.LexSpec | src/c_core/lexer.c:26-125 | `lex` on a whole input, from line 1 and column 1: at least one and at most `strlen(input) + 1` tokens |
| CLexer.Advance | src/c_core/lexer.c:115 | proof helper (sequence associativity): moving one stored token or diagnostic from the front of what remains to the end of what is done keeps the whole |
| CLexerProperties.StepShape | src/c_core/lexer.c:78-103 | every token one step emits has the shape of its kind |
| CLexerProperties.RunShape | src/c_core/lexer.c:78-93 | a run that starts in its class is 1 to 99 characters long, starts with that character and lies wholly in its class |
| CLexerProperties.ImportShape | src/c_core/lexer.c:48-75 | an import value has at most 99 characters and none of them is its closing delimiter |
| CLexerProperties.LexFromShape | src/c_core/lexer.c:34-123 | the scan from any position ends with exactly one EOF sentinel; every earlier token has its kind's shape and is not EOF |
| CLexerProperties.LexShape | src/c_core/lexer.c:26-125 | the whole scan ends with exactly one `EOF` token with value `EOF`, and every other token is a keyword exactly when the table lists it, otherwise an identifier, a digit run, a one-character operator or symbol, or an import, of at most 99 characters |
| CLexerProperties.DoubleEquals | src/c_core/lexer.c:94-98 | `==` is two one-character operator tokens followed by the sentinel |
| CLexerProperties.LongRunSplits | src/c_core/lexer.c:78-85 | an alphanumeric run longer than 99 characters gives a first token of exactly its first 99 characters, and more tokens follow |
| CLexerProperties.RunEndIs | src/c_core/lexer.c:80 | the copying loop over a maximal run of at most the budget's length stops exactly at the run's end |
| CLexerProperties.WordRun | src/c_core/lexer.c:78-85 | a maximal letter-started alphanumeric run of at most 99 characters is ONE token, a KEYWORD exactly when it is reserved and an IDENTIFIER otherwise, holding the whole run, followed by the tokens and diagnostics of the scan from the run's end with the column advanced by the run's length |
| CLexerProperties.WordStep | src/c_core/lexer.c:78-85 | one scan step at such a run emits that one keyword or identifier token, no diagnostic, and moves to the run's end on the same line |
| CLexerProperties.NumberRun | src/c_core/lexer.c:86-93 | a maximal digit run of at most 99 characters is ONE NUMBER token holding the whole run, followed by the scan from the run's end |
| CLexerProperties.DigitStep | src/c_core/lexer.c:86-93 | one scan step at such a run emits that one NUMBER token, no diagnostic, and moves to the run's end on the same line |
| CLexerProperties.EmitOne | src/c_core/lexer.c:115 | a step that emits one token and no diagnostic puts that token in front of the scan from where the step stops |
| CLexerProperties.NotDirective | src/c_core/lexer.c:48-49 | a letter or digit never starts `#import_from_c` or `#import` |
| CLexerProperties.RunEndFull | src/c_core/lexer.c:80 | over characters that all belong to the class, the copy stops only at the budget or at the end |
| CLexerProperties.ImportFromCDirective | src/c_core/lexer.c:49-61 | `#import_from_c`, then text without `<`, then `<v>`: the position meets the scanner's requirement, one ImportFromC token with value `v` comes out, and the scan resumes just after `>` |
| CLexerProperties.ImportDirective | src/c_core/lexer.c:62-75 | `#import` (not `#import_from_c`), then text without `"`, then `"v"`: the position meets the scanner's requirement, one Import token with value `v` comes out, and the scan resumes just after the closing quote |
| CLexerProperties.DirectiveParts | src/c_core/lexer.c:50-60 | after any prefix, a gap free of the opening delimiter, the delimiter, a value (at most 99 characters) free of the closing one and the closing delimiter, the directive scan yields exactly that value and resumes just after the closing delimiter |
| CLexerProperties.ScanDirectiveAt | src/c_core/lexer.c:50-60 | the same over positions: with the first opening delimiter at `a + g` and the first closing one `n` characters after it, the token holds those `n` characters and the scan resumes after the closing delimiter |
| CLexerProperties.Middle | src/c_core/lexer.c:53-57 | proof helper (sequence indexing): the value part of a directive's text is read back by its position |
| CLexerProperties.LoneFromC | src/c_core/lexer.c:49-61 | `#import_from_c`, a gap without `<`, then `<v>` with `v` free of `>` and at most 99 characters, meets the scanner's requirement and lexes to exactly the ImportFromC token `v` and the sentinel |
| CLexerProperties.LoneImport | src/c_core/lexer.c:62-75 | the same for `#import` (not `#import_from_c`), a gap without `"` and a quoted value: exactly the Import token `v` and the sentinel |
| CLexerProperties.FromCHoldingPrefix | src/c_core/lexer.c:49-61 | `#import_from_c <#import>` is accepted and gives one ImportFromC token `#import`: the prefix inside the value is copied, not scanned |
| CLexerProperties.ImportHoldingPrefix | src/c_core/lexer.c:62-75 | `#import "a#import_from_c"` is accepted and gives one Import token `a#import_from_c` |
| CLexerProperties.PrefixAt | src/c_core/lexer.c:49 | a directive text starts with its prefix, which `strncmp` then finds |
| CLexerProperties.FindFromAt | src/c_core/lexer.c:51 | the skip stops at the first occurrence of the delimiter |
| CLexerProperties.RunEndAt | src/c_core/lexer.c:54-56 | the copy of an import value stops at the first closing delimiter within 99 characters |
| CLexerProperties.RunEndBudget | src/c_core/lexer.c:54 | the same, for any larger budget |
| CLexerProperties.FromCIsImport | src/c_core/lexer.c:49-62 | every `#import_from_c` also starts with `#import`, which is why it must be tested first |
| CLexerProperties.NoImportsClosed | src/c_core/lexer.c:34-116 | a text without `#import` meets the scanner's requirement from every position on |
| CLexerProperties.RunFacts | src/c_core/lexer.c:78-103 | a run of kept characters without newlines is kept verbatim, reports nothing and moves the column by its length on the same line |
| CLexerProperties.RunKeptText | src/c_core/lexer.c:78-103 | a run of kept characters is kept verbatim |
| CLexerProperties.RunNoStrays | src/c_core/lexer.c:104-113 | such a run reports nothing |
| CLexerProperties.RunSameLine | src/c_core/lexer.c:35-44 | without newlines the line stays and the column moves by the run's length |
| CLexerProperties.StepFacts | src/c_core/lexer.c:78-113 | outside directives and blanks, a step keeps a run of kept characters as its token's text, or reports a stray character at the current line and column and moves one column on |
| CLexerProperties.BlankSkipped | src/c_core/lexer.c:35-44 | a newline moves to the next line at column 1 and any other blank moves one column on; neither changes the rest of the scan |
| CLexerProperties.CoverBlank | src/c_core/lexer.c:35-44 | coverage survives a blank |
| CLexerProperties.BlankDropped | src/c_core/lexer.c:35-44 | a blank is neither kept nor reported |
| CLexerProperties.CoverStray | src/c_core/lexer.c:104-113 | coverage survives a stray character |
| CLexerProperties.KeptStep | src/c_core/lexer.c:78-103 | a kept character outside a directive starts a token whose text is the run up to the next position, followed by the texts of the rest of the scan, with no diagnostic of its own |
| CLexerProperties.KeptNotBlank | src/c_core/lexer.c:35 | a kept character is not blank, so the scan does not skip it |
| CLexerProperties.CoverKept | src/c_core/lexer.c:78-103 | coverage survives a kept run |
| CLexerProperties.KeptCovered | src/c_core/lexer.c:78-115 | a token's run followed by a covered rest gives a covered scan |
| CLexerProperties.KeptTexts | src/c_core/lexer.c:115-121 | proof helper (sequence associativity): a run's text in front of the rest's texts and `EOF` regroups into the kept characters followed by `EOF` |
| CLexerProperties.TextsCons | src/c_core/lexer.c:115 | proof helper: the texts of a token list are its first token's text followed by the rest's |
| CLexerProperties.CoverageFrom | src/c_core/lexer.c:34-116 | without import directives, the scan from a position at its own line and column loses only blanks and stray characters, and reports each stray character once with its line and column |
| CLexerProperties.Coverage | src/c_core/lexer.c:26-125 | without import directives, the token texts spell the letters, digits, operators and symbols of the input in order, followed by `EOF`; there is one diagnostic per other non-blank character, at its line and column counted from 1 |
| CParser.Clip | src/c_core/parser.h:22 | `snprintf` into `message[256]` keeps at most the first 255 characters, and a short message whole |
| CParser.Report | src/c_core/parser.c:22-26 | the printed parser diagnostic: `Parser Error [Line 0, Column 0]: `, the clipped message and a newline |
| CParser.CreateNode | src/c_core/parser.c:11-20 | a node of the given type and token with `left`, `right`, `next` and `body` all NULL |
| CParser.ParseExpr | src/c_core/parser.c:28-56 | an expression never moves the cursor back and never off the lexed tokens |
| CParser.SkipLoose | src/c_core/parser.c:60-62 | the skip stops at the first token that is neither an operator nor a symbol and passes only such tokens |
| CParser.FindClose | src/c_core/parser.c:74-76 | the parameter scan stops at the first `)` symbol, or at the end of the lexed tokens when there is none |
| CParser.OptSemi | src/c_core/parser.c:94-96 | an optional `;` symbol is consumed, and nothing else is |
| CParser.ParseStmt | src/c_core/parser.c:58-167 | a statement that returns normally never moves the cursor back and never off the lexed tokens |
| CParser.ParseAt | src/c_core/parser.c:64-166 | the same, for the dispatch on the first token not skipped |
| CParser.ParsePrefixed | src/c_core/parser.c:90-136 | `return`, `print` and `input` always return normally and consume at least the keyword |
| CParser.ParseOperandAt | src/c_core/parser.c:140-161 | identifier and number statements always return normally and consume at least their token |
| CParser.ParseFunc | src/c_core/parser.c:66-89 | a completed function definition consumes at least the keyword |
| CParser.ParseGuarded | src/c_core/parser.c:98-119 | a completed `while` or `if` consumes at least the keyword |
| CParser.ParseBlock | src/c_core/parser.c:169-193 | a completed block never moves the cursor back |
| CParser.Indent | src/c_core/parser.c:203 | the indentation for a depth is twice that many spaces |
| CParser.ParseExpression | src/c_core/parser.c:28-56 | the imperative `parseExpression` computes `ParseExpr`: node, new cursor and printed diagnostics |
| CParser.ParseStatement | src/c_core/parser.c:58-167 | the imperative `parseStatement`, skip loop included, computes `ParseStmt` |
| CParser.Dispatch | src/c_core/parser.c:64-166 | the keyword, identifier and number branches and the final `Unexpected token` report compute `ParseAt` |
| CParser.ParsePrefixedStatement | src/c_core/parser.c:90-136 | the `return`, `print` and `input` branches compute `ParsePrefixed` |
| CParser.ParseOperand | src/c_core/parser.c:140-161 | the identifier and number branches compute `ParseOperandAt` |
| CParser.ParseFunction | src/c_core/parser.c:66-89 | the `func` branch, parameter scan included, computes `ParseFunc` |
| CParser.ParseGuardedStatement | src/c_core/parser.c:98-119 | the `while` and `if` branches compute `ParseGuarded` |
| CParser.ChainOntoSnoc | src/c_core/parser.c:175-181 | linking one more statement at the end of the chain is linking it in front of what follows |
| CParser.BlockStep | src/c_core/parser.c:173-183 | one turn of the block loop: a failed statement ends the block with its outcome, a statement that does not move the cursor makes the block `Stuck`, and any other is linked before the rest of the block |
| CParser.ParseBlockLoop | src/c_core/parser.c:169-193 | the `head`/`current` loop and the closing `}` compute `ParseBlock` |
| CParser.ParseProgram | src/c_core/parser.c:195-198 | `parse` is one block read from the first token |
| CParser.Label | src/c_core/parser.c:205-236 | the text `printAST` writes after the indentation for each node type, with the token value where the C code prints it |
| CParser.PrintAst | src/c_core/parser.c:200-239 | the lines `printAST` writes: the node, then `left`, `right` and `body` one level deeper, then `next` at the same depth |
| CParserProperties.ExprShape | src/c_core/parser.c:28-56 | at EOF: NULL, no token used, one diagnostic. Otherwise a leaf of the first token after 1 token, or after 2 tokens with a diagnostic when EOF follows an operator, or an operator node over two leaves after 3 tokens; token kinds are not checked |
| CParserProperties.SkipsLoose | src/c_core/parser.c:60-62 | a leading operator or symbol, `}` included, is skipped |
| CParserProperties.SkipsAllLoose | src/c_core/parser.c:60-62 | every leading operator or symbol is skipped |
| CParserProperties.AssignShape | src/c_core/parser.c:140-150 | `name = expr` gives an assignment node with the identifier as token, the expression on the right, NULL on the left, and an optional `;` consumed |
| CParserProperties.BareIdentifier | src/c_core/parser.c:157-160 | an identifier without `=` is consumed and gives NULL with the `Expected '='` diagnostic |
| CParserProperties.PrefixedShape | src/c_core/parser.c:90-136 | `return`, `print` and `input` give a node of the matching type holding the keyword, with the expression on the left and an optional `;` consumed |
| CParserProperties.NumberShape | src/c_core/parser.c:151-156 | a number statement is a leaf, with an optional `;` consumed |
| CParserProperties.StallsExactly | src/c_core/parser.c:164-166 | a statement leaves the cursor where it was exactly when it starts on a token neither skipped nor dispatched on (`else`, `int`, import tokens, EOF …), and then gives NULL and an `Unexpected token` diagnostic |
| CParserProperties.StallingBlock | src/c_core/parser.c:173-183 | a block that meets such a token other than EOF loops forever on it |
| CParserProperties.FuncWithoutClose | src/c_core/parser.c:74-76 | a `func` whose parameter list has no `)` sends the cursor past the lexed tokens |
| CParserProperties.NoClose | src/c_core/parser.c:74-76 | without a `)` the parameter scan runs to the end of the tokens |
| CParserProperties.BlockEnd | src/c_core/parser.c:173-190 | a completed block ends at EOF, or just after the `}` it consumed |
| CParserProperties.StmtUnlinked | src/c_core/parser.c:58-167 | every statement node comes back with `next` NULL |
| CParserProperties.GuardedUnlinked | src/c_core/parser.c:98-119 | the same for `while` and `if` nodes |
| CParserProperties.FuncUnlinked | src/c_core/parser.c:66-89 | the same for function nodes |
| CParserProperties.BlockChain | src/c_core/parser.c:169-193 | the `next` chain of a completed block is the non-NULL statements it read, in the order it read them |
| CParserProperties.PrintOneLinePerNode | src/c_core/parser.c:200-239 | `printAST` prints one line per node reachable through the four links |
| CParserProperties.PrintIndented | src/c_core/parser.c:200-239 | every line printed for a node at some depth is indented by at least two spaces per level |
| CDebugger.IsImportUsedRec | src/c_core/debugger.c:7-20 | the recursive search computes `IsImportUsed` |
| CDebugger.IsImportUsed | src/c_core/debugger.c:7-20 | the search: a node whose identifier or keyword token has the name, or a hit in `left`, `right`, `body` or `next` |
| CDebugger.Uses | src/c_core/debugger.c:10-14 | a node counts as a use only when it holds the name in its token, and an import token never counts, so a directive is not its own use |
| CDebugger.CheckFrom | src/c_core/debugger.c:22-39 | the loop from token `i`: an unused import prints a warning and the question and reads one answer; a refusal prints the abort line and exits, anything else goes on |
| CDebugger.DebuggerCheck | src/c_core/debugger.c:22-39 | `debuggerCheck` is that loop from the first token |
| CDebugger.RunCheck | src/c_core/debugger.c:22-39 | the `for` loop over the tokens prints, reads and aborts as `DebuggerCheck` does |
| CDebugger.CheckToken | src/c_core/debugger.c:24-37 | one pass warns about an unused import, reads one answer and stops on a refusal, or goes on with the next token |
| CDebugger.UsedIffReachable | src/c_core/debugger.c:7-20 | `isImportUsed(NULL, name)` is false; otherwise it is true exactly when a node reachable through left, right, body and next holds an identifier or keyword token spelled `name` (numbers, operators and imports never count) |
| CDebugger.UsePath | src/c_core/debugger.c:16-19 | a successful search yields a path of links to a use |
| CDebugger.PathUse | src/c_core/debugger.c:10-19 | a use at the end of any path makes the search succeed |
| CDebugger.FirstRefusal | src/c_core/debugger.c:32 | the first answer that starts with `n` or `N`, with every earlier one not refusing |
| CDebugger.WarnLine | src/c_core/debugger.c:26 | the warning is the fixed prefix, the import's name and a newline, so the name is recovered between prefix and newline |
| CDebugger.Refuses | src/c_core/debugger.c:32 | only an answer with a first character can refuse, and an empty line or one starting with `y` or `Y` never does |
| CDebugger.CheckOutcome | src/c_core/debugger.c:22-39 | only import tokens are examined, in token order. Each unused one gets a warning and a question and reads one answer. The check aborts with the abort message exactly at the first answer starting with `n` or `N`; otherwise it ends after warning about every unused import |
| CDebugger.WarnStep | src/c_core/debugger.c:25-35 | an unused import's warning and answer go in front of what the rest of the check does |
| CDebugger.RefusedFirst | src/c_core/debugger.c:32-35 | a refusing first answer ends the check after one warning |
| CDebugger.AcceptedFirst | src/c_core/debugger.c:25-36 | an accepting first answer puts one warning in front of the rest of the check's outcome |
| CDebugger.LaterRefusal | src/c_core/debugger.c:25-27 | the warnings up to a later answer are this import's warning and prompt followed by those of the remaining imports |
| CDebugger.WarningsCons | src/c_core/debugger.c:26-27 | the warnings for a list of names are the first name's warning and question, then the rest's |
| CDebugger.AllUsedIsSilent | src/c_core/debugger.c:22-39 | when every import is used, the check prints nothing, reads nothing and does not abort |
| CDebugger.NoUnused | src/c_core/debugger.c:24-25 | then no import is listed as unused |
| CExecutor.NewlineAt | src/c_core/executor.c:52 | `strcspn(buffer, "\n")` is the index of the first newline, or the length |
| CExecutor.UpToNewline | src/c_core/executor.c:52 | the truncated buffer is the longest prefix without a newline |
| CExecutor.ExecNode | src/c_core/executor.c:10-58 | the `switch` for one node: what it prints, what it reads and whether it was a `return` |
| CExecutor.IsTrue | src/c_core/executor.c:32-38 | a condition holds only when it is present and its token text is exactly `1` (no ensures: the predicate is the condition) |
| CExecutor.ExecChain | src/c_core/executor.c:8-62 | the nodes of a chain in turn, each from the input the previous one left, up to and including a `return` |
| CExecutor.ExecuteProgram | src/c_core/executor.c:64-66 | `execute_program` runs the chain from the root |
| CExecutor.ChainStep | src/c_core/executor.c:9-61 | one turn of the chain loop: a `return` ends the chain, any other node's output comes before the rest of the chain |
| CExecutor.Execute | src/c_core/executor.c:8-62 | the `while (node != NULL)` loop prints and reads what `ExecChain` does |
| CExecutor.ExecuteTurn | src/c_core/executor.c:10-60 | one turn of the loop adds the node's output, and stops after a `return` |
| CExecutor.ExecuteNode | src/c_core/executor.c:10-58 | the `switch` computes `ExecNode`, calling `execute` for bodies |
| CExecutor.Truncate | src/c_core/executor.c:52 | the newline scan gives the text before the first newline |
| CExecutorProperties.ReturnEndsChain | src/c_core/executor.c:17-21 | a `return` prints its operand and ends the chain; no later sibling runs |
| CExecutorProperties.BodyReturnStaysInside | src/c_core/executor.c:31-44 | `if`, `while` and function nodes never end the chain they sit in, whatever their body does |
| CExecutorProperties.NestedReturnExample | src/c_core/executor.c:17-34 | `if 1 { return a; print b } print c` prints `[Return] a` and then `c` |
| CExecutorProperties.WhileRunsAtMostOnce | src/c_core/executor.c:31-39 | a `while` behaves as an `if` with the same condition and body: the body runs once when the condition text is exactly `1`, and not at all otherwise |
| CExecutorProperties.NodeIgnoresNext | src/c_core/executor.c:10-58 | a node's own work does not depend on what follows it |
| CExecutorProperties.ChainInOrder | src/c_core/executor.c:9-61 | the nodes of a chain are handled in `next` order, each once, up to the first `return` |
| CExecutorProperties.NoInputReadsNothing | src/c_core/executor.c:8-62 | the executor keeps no state: a tree without `input` reads nothing, and its output does not depend on standard input |
| CExecutorProperties.NodeNoInput | src/c_core/executor.c:10-58 | the same for one node |
| CExecutorProperties.InputEcho | src/c_core/executor.c:46-54 | `input` prints its prompt text, reads one line and echoes it without its newline, leaving the rest of standard input |
| CExecutorProperties.PrintVerbatim | src/c_core/executor.c:11-15 | `print` writes its operand's token text verbatim and a newline, and nothing for a missing operand; the rest of the chain then runs from the same input |
| CExecutorProperties.AssignOnlyPrints | src/c_core/executor.c:23-29 | an assignment only prints a trace line, `(null)` standing in for a missing right-hand side, and the chain goes on from the same input with that line in front |
| CExecutorProperties.AssignRemoved | src/c_core/executor.c:23-29 | taking an assignment out of a chain takes out exactly its trace line and changes nothing later nodes print or read |
| CExecutorProperties.FuncRunsAtOnce | src/c_core/executor.c:41-44 | a function definition prints `[Function Defined] name`, runs its body at once, and the rest of the chain runs from the input the body left |
| Stdio.LineLength | src/c_core/executor.c:51 | `fgets` takes at most its limit, stopping after the first newline |
| Stdio.Fgets | src/c_core/debugger.c:30 | what one `fgets` reads and what it leaves make up standard input; at most `size - 1` characters are read, ending with a newline unless the room or the input ran out |
| Stdio.FgetsLine | src/c_core/executor.c:51 | with room for a whole line, `fgets` reads it with its newline and leaves the rest |
| Stdio.LineLengthOf | src/c_core/executor.c:51 | the same, for the number of characters read |
| GoLexer.IsKeyword | src/go_runtime/main.go:117-125 | the range loop answers true exactly for the words of the keyword slice |
| GoLexer.IsWhitespace | src/go_runtime/main.go:93-95 | a blank byte is neither alphanumeric, an operator nor a symbol |
| GoLexer.IsAlpha | src/go_runtime/main.go:97-99 | a letter is neither a digit, an operator nor a symbol |
| GoLexer.IsAlnum | src/go_runtime/main.go:101-103 | a letter or digit is neither an operator nor a symbol |
| GoLexer.IsDigit | src/go_runtime/main.go:105-107 | a digit is neither an operator nor a symbol |
| GoLexer.IsOperator | src/go_runtime/main.go:109-111 | an operator byte is not a symbol |
| GoLexer.IsSymbol | src/go_runtime/main.go:113-115 | the comma is not a symbol, unlike in the C lexer |
| GoLexer.RuneString | src/go_runtime/main.go:78 | `string(byte)` keeps a byte below 0x80 as it is and writes any other as its two-byte UTF-8 encoding |
| GoLexer.RunEnd | src/go_runtime/main.go:53-55 | an inner loop stops at the end or at the first byte outside its class |
| GoLexer.Word | src/go_runtime/main.go:56-60 | an alphanumeric run is a KEYWORD when the keyword slice holds it and an IDENTIFIER otherwise |
| GoLexer.LexFrom | src/go_runtime/main.go:40-85 | the tokens `lex` appends from a position on: blanks skipped, runs of letters, digits or operator bytes, one-byte symbols and unknown bytes, then `EOF` |
| GoLexer.ScanRun | src/go_runtime/main.go:64-66 | the inner loop computes `RunEnd` |
| GoLexer.ScanToken | src/go_runtime/main.go:51-80 | one non-blank pass appends exactly the next token of the scan and moves past it |
| GoLexer.Lex | src/go_runtime/main.go:40-85 | `lex` returns the tokens of the scan, `EOF` included |
| GoLexerProperties.KeywordTable | src/go_runtime/main.go:117-125 | the keyword slice holds exactly the eight words `if` … `void`; `func`, `print` and `input` are identifiers |
| GoLexerProperties.TokenEnd | src/go_runtime/main.go:51-80 | every token takes at least one byte |
| GoLexerProperties.HeadShape | src/go_runtime/main.go:51-80 | at a non-blank byte the first token is well formed and the scan goes on from where that token ends |
| GoLexerProperties.SliceAllIn | src/go_runtime/main.go:53-72 | a slice of a run lies in the run's class |
| GoLexerProperties.ShapeCons | src/go_runtime/main.go:58-79 | a well-formed token in front of a well-formed scan is a well-formed scan |
| GoLexerProperties.LexFromShape | src/go_runtime/main.go:45-83 | the scan from any position ends with the single `EOF` token and every other token is well formed |
| GoLexerProperties.LexShape | src/go_runtime/main.go:40-85 | the result ends with exactly one `EOF` token `EOF`. Identifiers are letter-started alphanumeric runs that are not keywords, numbers are digit runs, operators are runs of operator bytes, symbols one byte. Unknown tokens are one stray byte, or the two-byte encoding of a byte from 0x80 up |
| GoLexerProperties.RunKept | src/go_runtime/main.go:53-72 | a run of alphanumeric or operator bytes is kept as it stands |
| GoLexerProperties.RunKeptStep | src/go_runtime/main.go:53-72 | the same, one byte at a time |
| GoLexerProperties.Regroup | src/go_runtime/main.go:58-79 | proof helper (sequence associativity): appending a run to what is done regroups the token values |
| GoLexerProperties.HeadValue | src/go_runtime/main.go:51-80 | the first token's value is the run it starts, or the converted stray byte |
| GoLexerProperties.ValuesCons | src/go_runtime/main.go:58-79 | the values of a non-EOF token in front of a list are its value followed by the list's |
| GoLexerProperties.ValuesFrom | src/go_runtime/main.go:45-81 | the values of the scan from a position are the non-blank input from there on, each byte as `lex` writes it |
| GoLexerProperties.AsciiKept | src/go_runtime/main.go:45-81 | for ASCII input that is the input with its blanks removed |
| GoLexerProperties.ValuesAreInput | src/go_runtime/main.go:40-95 | concatenating all non-EOF token values gives the input without its space, newline, tab and return bytes (for ASCII input; a byte from 0x80 up comes back in two bytes) |
| GoLexerProperties.RunEndAt | src/go_runtime/main.go:53-72 | an inner loop stops exactly at the end of a maximal run |
| GoLexerProperties.OperatorRun | src/go_runtime/main.go:68-73 | a maximal run of operator bytes, such as `<=` or `==`, is one OPERATOR token |
| GoLexerProperties.NumberRun | src/go_runtime/main.go:62-67 | a maximal digit run is one NUMBER token |
| GoLexerProperties.WordRun | src/go_runtime/main.go:51-61 | a maximal letter-started alphanumeric run is one KEYWORD or IDENTIFIER token, depending on the keyword slice |
| GoLexerProperties.StrayByte | src/go_runtime/main.go:77-80 | any other byte, `,` included, becomes one UNKNOWN token and is not dropped |
| GoLexerProperties.ComparisonExample | src/go_runtime/main.go:45-83 | `x<=10;` lexes as IDENT `x`, OPERATOR `<=`, NUMBER `10`, SYMBOL `;`, EOF |
| GoLexerProperties.BoundExample | src/go_runtime/main.go:62-83 | its tail from `<=` on |
| GoLexerProperties.CallExample | src/go_runtime/main.go:45-83 | `func f(a,b)` lexes with `func` as an identifier and the comma as an UNKNOWN token |
| GoLexerProperties.NameExample | src/go_runtime/main.go:51-83 | its tail from `f` on |
| GoLexerProperties.ArgumentsExample | src/go_runtime/main.go:51-83 | its tail from `a` on |
| GoLexerProperties.CommaExample | src/go_runtime/main.go:74-83 | its tail from the comma on |
| Arith.TruncDiv | src/go_runtime/math.go:11 | Go's `a / b`: the magnitude is the quotient of the magnitudes, and a non-zero result is negative exactly when the signs differ |
| Arith.TruncMod | src/go_runtime/math.go:20 | Go's `a % b`: the magnitude is the remainder of the magnitudes, and a non-zero result has the sign of `a` |
| Arith.DivModIdentity | src/go_runtime/math.go:11-20 | truncated quotient times divisor plus remainder is the dividend |
| Arith.ModBound | src/go_runtime/math.go:20 | the remainder is smaller in magnitude than the divisor |
| GoMath.Divide | src/go_runtime/math.go:6-12 | divisor 0: 0 and the division-by-zero line; otherwise the quotient truncated toward zero, printing nothing |
| GoMath.Modulo | src/go_runtime/math.go:15-21 | divisor 0: 0 and the modulo-by-zero line; otherwise a remainder smaller in magnitude than the divisor, 0 or of the sign of `a`, printing nothing |
| GoMath.QuotientRemainder | src/go_runtime/math.go:6-21 | for a non-zero divisor `divide(a,b)*b + modulo(a,b) == a` |
| GoMath.TruncationExample | src/go_runtime/math.go:11-20 | -7 / 2 is -3 remainder -1, where rounding down would give -4 remainder 1 |
| GoRuntime.Evaluate | src/go_runtime/runtime.go:80-99 | a value comes only from a number or an identifier node |
| GoRuntime.AssignLine | src/go_runtime/runtime.go:47 | the line an assignment prints: name, ` = `, the decimal value and a newline |
| GoRuntime.Assign | src/go_runtime/runtime.go:40-49 | `executeAssignment`: an evaluation error changes nothing; otherwise the variable is set and its line printed |
| GoRuntime.Exec | src/go_runtime/runtime.go:20-38 | `execute`: nil is done, an identifier node assigns, `if` and `while` nodes branch, any other node passes on to `Next` |
| GoRuntime.IsKeywordNode | src/go_runtime/runtime.go:28-33 | a node is the keyword `w` when its token is a KEYWORD with that text (no ensures: the predicate is the test) |
| GoRuntime.ExecIf | src/go_runtime/runtime.go:51-62 | `executeIf`: a condition error fails; non-zero runs `Right`; zero runs `Next` when there is one |
| GoRuntime.ExecWhile | src/go_runtime/runtime.go:64-78 | `executeWhile`: repeat the body while the condition is non-zero, stopping at the first error, within the loop budget |
| GoRuntime.ErrorLine | src/go_runtime/runtime.go:16 | the line `run` prints for an error |
| GoRuntime.RunProgram | src/go_runtime/runtime.go:12-18 | `run`: the walk from an empty variable map, followed by the error line when it failed |
| GoRuntime.PrefixPrefix | src/go_runtime/runtime.go:65-76 | output printed in two parts before a walk is their concatenation before it |
| GoRuntime.WhileIteration | src/go_runtime/runtime.go:65-76 | one turn of the loop whose condition is non-zero: a failing body ends the loop with its outcome, otherwise the loop goes on from the body's variables after the body's output |
| GoRuntime.Runtime.constructor | src/go_runtime/runtime.go:10 | the package starts with no variables and nothing printed |
| GoRuntime.Runtime.Run | src/go_runtime/runtime.go:12-18 | `run` replaces the variables by an empty map, walks the tree, and prints the error line when the walk fails |
| GoRuntime.Runtime.Execute | src/go_runtime/runtime.go:20-38 | `execute` updates the variables, prints and returns the status that `Exec` gives |
| GoRuntime.Runtime.ExecuteAssignment | src/go_runtime/runtime.go:40-49 | `executeAssignment` updates the variables, prints and returns the status that `Assign` gives |
| GoRuntime.Runtime.ExecuteIf | src/go_runtime/runtime.go:51-62 | `executeIf` does what `ExecIf` does |
| GoRuntime.Runtime.ExecuteWhile | src/go_runtime/runtime.go:64-78 | the `for` loop of `executeWhile` does what `ExecWhile` does with the same budget |
| GoRuntimeProperties.EvaluateErrors | src/go_runtime/runtime.go:81-98 | a nil node, an undefined identifier and any token other than a number or identifier are errors with their messages; a number fails exactly when `Atoi` does |
| GoRuntimeProperties.EvaluateValues | src/go_runtime/runtime.go:84-97 | `evaluate` gives `v` exactly for a number that reads as `v` or a defined variable holding `v`; a digit string gives its decimal value |
| GoRuntimeProperties.EvaluatePrinted | src/go_runtime/runtime.go:84-90 | a number written by `%d` evaluates to its value |
| GoRuntimeProperties.AssignOnlyItsName | src/go_runtime/runtime.go:40-49 | a successful assignment sets its own variable, keeps every other one and prints one line; a failed one changes nothing and prints nothing |
| GoRuntimeProperties.AssignLineShape | src/go_runtime/runtime.go:47 | the printed line is the name, ` = `, the decimal value (which reads back as the value) and a newline |
| GoRuntimeProperties.AssignmentEndsChain | src/go_runtime/runtime.go:26-27 | an identifier node performs its assignment and does not go on to `Next` |
| GoRuntimeProperties.OthersSkipped | src/go_runtime/runtime.go:25-37 | any node other than an identifier, `if` or `while` is passed over for `Next` |
| GoRuntimeProperties.IfEitherOr | src/go_runtime/runtime.go:51-62 | `if` runs `Right` when its condition is non-zero and otherwise `Next`, never both; a condition that cannot be evaluated is the error |
| GoRuntimeProperties.WhileEndsChain | src/go_runtime/runtime.go:64-78 | nothing after a `while` ever runs |
| GoRuntimeProperties.WhileIgnoresNext | src/go_runtime/runtime.go:64-78 | the loop depends only on its condition and body |
| GoRuntimeProperties.WhileDoneAtZero | src/go_runtime/runtime.go:64-78 | a loop that ends without error ends because its condition evaluated to 0 |
| GoRuntimeProperties.WhileErrorStops | src/go_runtime/runtime.go:66-75 | a condition error stops the loop before any change; a failing body stops it with the body's outcome |
| GoRuntimeProperties.ExecFuel | src/go_runtime/runtime.go:20-38 | more loop budget changes nothing about a walk that did not run out of it |
| GoRuntimeProperties.IfFuel | src/go_runtime/runtime.go:51-62 | the same for `if` |
| GoRuntimeProperties.WhileFuel | src/go_runtime/runtime.go:64-78 | the same for `while` |
| GoRuntimeProperties.OneTurnExample | src/go_runtime/runtime.go:64-78 | `while x { x = 0 }` with `x` at 1 runs its body once, prints `x = 0` and stops |
| GoRuntimeProperties.SpinExample | src/go_runtime/runtime.go:64-78 | `while 1 { }` never ends: every budget is used up |
| GoRuntimeProperties.RunStartsEmpty | src/go_runtime/runtime.go:12-18 | `run` starts from an empty map, so reading a variable before assigning it prints a runtime error |
| GoRuntimeProperties.RunReportsErrors | src/go_runtime/runtime.go:12-18 | `run` prints the walk's output and then one error line exactly when the walk failed |
| LegacyLexer.WordEnd | src/lexer.c:22-24 | the identifier loop stops at the end or at the first byte that is not a letter, digit or `_` |
| LegacyLexer.WordsFit | src/lexer.c:21-24 | every identifier run the scan copies is shorter than the 128-byte buffer |
| LegacyLexer.LexFrom | src/lexer.c:13-38 | the tokens the loop writes from a position on: identifier runs, `+` as PLUS, blanks skipped and any other character as an EOF token |
| LegacyLexer.LexFromCount | src/lexer.c:18-35 | every token takes at least one character |
| LegacyLexer.CopyWord | src/lexer.c:19-27 | the identifier branch copies the whole run into the buffer and moves the index past it |
| LegacyLexer.ScanOne | src/lexer.c:18-35 | one pass writes the next token of the scan, if any, and moves on |
| LegacyLexer.Store | src/lexer.c:27-33 | `tokens[index++] = ...` appends the pass's token, if any, after those already stored |
| LegacyLexer.Lexer | src/lexer.c:13-38 | a fresh array of `strlen(source)` slots whose first `count` slots are the scan's tokens |
| LegacyLexerProperties.ShapedCons | src/lexer.c:27-33 | a well-formed token in front of well-formed tokens |
| LegacyLexerProperties.LexFromShaped | src/lexer.c:18-35 | every token from a position on is an identifier, a `+` or an `EOF` token |
| LegacyLexerProperties.LexShape | src/lexer.c:13-38 | identifiers start with a letter and go on over letters, digits and `_` (at most 127); `+` gives TOKEN_PLUS `+`; any other non-blank character gives TOKEN_EOF `EOF`; there are at most `strlen(source)` tokens |
| LegacyLexerProperties.CharacterCases | src/lexer.c:28-33 | `+` gives one PLUS token, whitespace none, and any other non-letter one EOF token |
| LegacyLexerProperties.NoSentinel | src/lexer.c:35-37 | input of letters, `+` and blanks gives no EOF token at all: no sentinel is appended |
| LegacyLexerProperties.Examples | src/lexer.c:18-35 | `a + b` gives three tokens; in `x1 2` the digit becomes an EOF token |
| CStrings.NulAt | src/utils.c:9 | the index of the first NUL, before which there is none |
| CStrings.Text | src/utils.c:9 | the string a buffer holds stops at its first NUL |
| CStrings.TextOf | src/utils.c:12 | a buffer holding a string and then NUL holds that string |
| CStrings.Strlen | src/extrafunc.c:23 | `strlen` finds the first NUL |
| CStrings.CopyAt | src/utils.c:31-32 | `strcpy` to an offset writes the string and a NUL there and nothing else |
| Decimal.DigitChar | src/utils.c:20 | a digit value gives the digit character |
| Decimal.DigitsValue | src/go_runtime/runtime.go:85 | the value of a string of decimal digits, most significant first |
| Decimal.NatToString | src/utils.c:20 | `%d` of a natural number is digits without a leading zero |
| Decimal.IntToString | src/utils.c:20 | `%d` starts with `-` exactly for a negative value |
| Decimal.NatRoundTrip | src/utils.c:20 | the digits of `n` read back as `n` |
| Decimal.NatLength | src/utils.c:19 | a value below 10^k needs at most k digits |
| Decimal.Atoi | src/go_runtime/runtime.go:85 | `strconv.Atoi` succeeds exactly on an optional sign followed by at least one digit |
| Decimal.AtoiDigits | src/go_runtime/runtime.go:85 | a digit string reads as its decimal value |
| Decimal.AtoiNegative | src/go_runtime/runtime.go:85 | a minus sign negates that |
| Decimal.IntRoundTrip | src/go_runtime/runtime.go:85 | what `%d` writes reads back as the value |
| Utils.StringDuplicate | src/utils.c:7-15 | NULL gives NULL; otherwise the copy equals the input |
| Utils.Int32Width | src/utils.c:19 | any 32-bit value needs at most eleven characters, sign included |
| Utils.IntToString | src/utils.c:18-22 | `int_to_string(n)` is the decimal rendering of `n` with a leading `-` when negative, at most 11 characters, and reads back as `n` |
| Utils.StringConcat | src/utils.c:25-35 | NULL when either argument is NULL; otherwise `s1` followed by `s2`, of length `len1 + len2` |
| ExtraFunc.Randomize | src/extrafunc.c:6-9 | `rand() % (max - min + 1) + min` is at least `min`, at most `max` when `min <= max`, and `min` plus the remainder of the `rand` value |
| ExtraFunc.Pick | src/extrafunc.c:14 | `rand() % (i + 1)` is an index from 0 to `i` |
| ExtraFunc.Swap | src/extrafunc.c:15-17 | the two elements trade places and the others stay |
| ExtraFunc.Shuffle | src/extrafunc.c:13-18 | the descending loop as a value: for `i` from the top down, swap element `i` with the one the next `rand` value picks |
| ExtraFunc.SwapPermutes | src/extrafunc.c:15-17 | a swap only rearranges |
| ExtraFunc.ShufflePermutes | src/extrafunc.c:13-18 | whatever `rand` returns, the shuffle keeps the length and only rearranges |
| ExtraFunc.ShuffleKeepsTail | src/extrafunc.c:13-18 | the elements above the starting index are never touched |
| ExtraFunc.SwapStep | src/extrafunc.c:15-17 | the three assignments swap `a[i]` and `a[j]` in place |
| ExtraFunc.ShuffleLoop | src/extrafunc.c:13-18 | the descending loop leaves the first `n` slots as the shuffle of their old contents and the rest untouched |
| ExtraFunc.RandomizeList | src/extrafunc.c:11-19 | `list[0..size)` becomes a permutation of its old contents (the shuffle the `rand` values pick), the rest is untouched, and `size <= 1` changes nothing |
| ExtraFunc.RandomizeString | src/extrafunc.c:21-30 | the characters before the NUL are permuted, the NUL stays, so `strlen` is unchanged |
| ExtraFunc.NulKept | src/extrafunc.c:24-29 | rearranging the characters before the first NUL keeps it the first |

## Left out

- File loading, the command line and the glue that runs lexer, parser, check and executor one after the other (`src/c_core/main.c`, `src/main.c`) are not part of this model. Each stage is modelled with its own inputs; the check and the executor hand back the rest of standard input, so they can be chained.
- The network client (`src/requests.c`), the GTK window (`src/gui.c`), the error-log writers (`src/error_handling.c`, `src/c_core/error_handling.c`), the cgo bridge (`src/go_runtime/error_handling.go`) and the stub `src/parser.c` are not part of this model.
- `reportLexerError`: a diagnostic is the value `LexError(line, column, ch)`; where and how it is written, with a `ctime` stamp, is not modelled.
- `printf` formatting is modelled only as the strings written.
- `safe_malloc` and `safe_realloc` are not modelled, and neither is allocation failure anywhere: `createNode`, `malloc` in `lexer` and `strdup` in `create_token` are taken to succeed.
- Utils.StringDuplicate: allocation failure, which makes the C function return NULL, is not modelled; the same holds for Utils.StringConcat.
- `create_token` (`src/lexer.c:6-11`) is the `LegacyLexer.Token` value itself: the `strdup` copy only gives the token its own text.
- Go `parse` (`main.go:87-90`) and the demo `main` of `math.go`, which reads two integers with `Scanf` and prints them, are not modelled.
- `srand(time(0))` plays no part. The `rand()` values are any non-negative integers given in a sequence; the bound `RAND_MAX` is not modelled.
- ExtraFunc.Randomize: requires `max - min + 1 != 0`, where the C code divides by zero, and does not model `int` overflow of `max - min + 1`.
- Stdio.Fgets: at the end of standard input the C buffer keeps what it held before (uninitialised in both callers); the model reads an empty answer, which neither refuses nor echoes anything.
- CLexer.TokenBuffer.Lex: requires at most 1024 tokens, because the C code writes past the static array otherwise. It also requires an opening `<` or `"` after each directive prefix the scan reaches (`ClosedFrom`), because `while (*p && *p != d) p++; p++;` steps past the NUL otherwise; a missing closing delimiter is handled. The line and column counters are unbounded integers. The array being returned on every call, so that a second `lex` overwrites the tokens of the first, is modelled only as the object's state.
- CLexer.LexFrom: each character of the input stands for one byte of the C string; the model does not require characters below 256, and the 99-character cap on a token counts characters. The same holds for LegacyLexer.LexFrom and its 128-byte buffer.
- CParser.ParseBlock: the `Expected '}' at end of block` branch (`parser.c:187-190`) is not in the model, because the loop before it ends only at EOF or `}`, so the branch is never taken. The loop that never ends is the outcome `Stuck`, and the cursor reading past the lexed tokens (undefined in C) is the outcome `PastEnd`. The error record of `parse` is never updated, so every diagnostic says line 0, column 0 as in the C code.
- CExecutor.ExecChain: the C pointers may share nodes or form cycles; the model's trees are finite values, which is what the parser builds.
- GoRuntime.ExecWhile: a `while` whose condition never becomes 0 runs forever in Go. The model stops it with `OutOfFuel` once the budget (the number of iterations each loop may run, one less inside its body) is used up. `GoRuntimeProperties.ExecFuel` shows that more budget changes no result that did not run out.
- Decimal.Atoi: values of any size are accepted; the range error of `strconv.Atoi` beyond 64 bits is not modelled, and neither is 64-bit wrap-around of Go `int` values (including `MinInt / -1` in `divide`).
- GoLexer.Lex: requires every character to stand for one byte (below 256), since a Go string is indexed by bytes.
- LegacyLexer.Lexer: requires every identifier to have fewer than 128 characters, since a longer one overflows `buffer[128]`. It also returns the number of tokens written, which the C function does not tell its caller, so that its contract can name the filled slots.
