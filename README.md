# z-lang compiler front end, modelled in Dafny

z-lang is a small language whose compiler works in stages:

1. A lexer turns source text into `Token`s, each with a byte range.
2. A recursive-descent parser builds a `Program` of `Stmt`s and `Expr`s from the tokens.
3. A type checker infers the types of `let` bindings and checks binary operators.
4. A code generator lowers the checked program to C text, with a fixed runtime preamble.
5. An optimization annotator puts `#define`/`#include` directives, chosen by the level, in front of the C code.

This project models stages 2 to 5 together with the token and AST types, and proves properties of the model.

## Files

- `wrappers.dfy`: `Option` and `Result`.
- `strings.dfy`: joining, repetition and decimal digits, with the round trip `ParseInt(IntString(i)) == i`, and line joining.
- `lexer.dfy`: the `Token` kinds, as their Rust discriminants, and the `{token, span}` record the lexer emits.
- `ast.dfy`: the AST: `Span`, `Type`, `Literal`, `BinaryOp`, `UnaryOp`, `Expr`, `Stmt`, `Program`, and `Display` for types.
- `parser.dfy`: the parser.
  - A grammar function per parsing routine. Each takes the token sequence and a position and returns the value read and the next position, or a `ParseError`.
  - The `Parser` class: a token sequence with a cursor `pos`, whose methods are proved to compute the grammar functions.
- `parser_properties.dfy`: what the parser accepts and builds.
  - Termination, order and abort on the first error.
  - The placeholders.
  - The brace-counting skip.
  - A round trip for types: spelling a type as tokens and parsing it gives the type back.
- `typechecker.dfy`: operator typing, expression and `let` checking as functions. The `TypeChecker` class has its tables as `map` fields, and its methods are proved to compute those functions.
- `typechecker_properties.dfy`: the typing rules both ways, the order of checks, first-error abort, and the contents of the declaration tables.
- `codegen.dfy`: the lowering to C as functions. The `CodeGenerator` class has an `indent_level` field that its methods raise and lower around nested bodies; each method is proved to produce the function's text and to restore the level.
- `codegen_properties.dfy`: lowering rules for each construct, string folding, and whole-line indentation of every statement. It also holds the shape of the generated file and the finding below.
- `optimizer.dfy`: the header as structured lines (comments, `#define`, `#include`, `#ifdef`/`#endif`), each rendered to its exact text, with properties of the directives at each level.

Decisions about what to model:

- **Spans.** A source span is `Span(start, end)`. An error span "0..0" is `EofSpan`.
- **Errors.** An error is its kind plus its span. The message text is not modelled.
- **Floats.** A float literal is opaque and is represented by its display text.
  - The parser's placeholder `3.14` is `Float64("3.14")`.
  - `f.to_string()` gives that text.
- **Integers.** `i64` is a newtype with the 64-bit range.
- **Identifiers.** The parser's placeholder names (`"identifier"`, `"main"`, `"type"`) and placeholder values (`42`, `"string"`) are modelled as written.
- **Scoping.** The type checker's variable table is one flat map. Every error is a `TypeError`.
  - The code has no scoping and no separate name error; every error is a `TypeError`, and the model follows the code.

## Model

| member | source | states |
|---|---|---|
| Ast.SpanFrom | src/ast.rs:10-17 | the span keeps the range's start and end |
| Ast.SpanFromInjective | src/ast.rs:10-17 | two ranges give the same span iff they are equal |
| Ast.TypeEqualityIsStructural | src/ast.rs:19-30 | arrays are equal iff their elements are; function types iff parameters and return types are |
| Ast.NewProgram | src/ast.rs:123-126 | the program holds exactly the given statements, in order |
| Ast.DisplayAll | src/ast.rs:43-48 | one display text per type, position by position |
| Ast.DisplayPrimitive | src/ast.rs:35-39 | primitive types display as `int`, `float`, `bool`, `string`, `void` |
| Ast.DisplayArray | src/ast.rs:40 | an array displays as `[` + element + `]` |
| Ast.DisplayStructAndInferred | src/ast.rs:51-52 | a struct displays as its name; `Inferred` as `_` |
| Ast.DisplayFunctionNoParams | src/ast.rs:41-50 | no parameters give `fn() -> R`, without separators |
| Ast.DisplayFunctionParams | src/ast.rs:41-50 | parameters are joined by `, ` between `fn(` and `) -> R` |
| Ast.JoinedParamsCons | src/ast.rs:43-48 | the comma loop puts `, ` only between parameters |
| Parser.ExpectAt | src/parser.rs:44-60 | succeeds iff the current kind is `k`, then returns that token and moves one on; a mismatch errs at the token's span, the end of input at `0..0` |
| Parser.PrimaryAt | src/parser.rs:390-434 | a success consumes exactly one token |
| Parser.ExpressionAt | src/parser.rs:385-388 | an expression is one primary token |
| Parser.TypeAt | src/parser.rs:436-493 | a type read consumes at least one token and stays inside the input |
| Parser.ArrayTypeAt | src/parser.rs:453-458 | `[ T ]` consumes at least one token |
| Parser.FunctionTypeAt | src/parser.rs:459-481 | `fn ( … ) -> R` consumes at least one token |
| Parser.ParamTypesAt | src/parser.rs:463-474 | the parameter list ends inside the input, possibly empty |
| Parser.TypeListAt | src/parser.rs:465-473 | the comma loop reads at least one type |
| Parser.AnnotationAt | src/parser.rs:138-145 | the optional `: T` ends inside the input |
| Parser.InitializerAt | src/parser.rs:147-154 | the optional `= e` ends inside the input |
| Parser.LetAt | src/parser.rs:121-168 | a `let` consumes at least its keyword |
| Parser.LetRestAt | src/parser.rs:138-168 | the rest of a `let` ends inside the input |
| Parser.SkipToRightParen | src/parser.rs:211-217 | the skip stops at a `)` or at the end |
| Parser.SkipBody | src/parser.rs:287-299 | the body skip stops at a `}` or at the end |
| Parser.ReturnTypeAt | src/parser.rs:237-264 | the optional `-> T` ends inside the input |
| Parser.FunctionDeclarationAt | src/parser.rs:172-188 | a declaration consumes at least `fn` |
| Parser.NamedFunctionAt | src/parser.rs:190-206 | after the name, at least `(` is consumed |
| Parser.AfterParametersAt | src/parser.rs:219-235 | after the parameters, at least `)` is consumed |
| Parser.BodyAt | src/parser.rs:266-299 | the body consumes at least `{` |
| Parser.DeclarationEndAt | src/parser.rs:301-326 | the declaration ends just after the closing `}` |
| Parser.AsStatement | src/parser.rs:78-87 | an expression result becomes `Stmt::Expr`, errors unchanged |
| Parser.AssignmentOrExpressionAt | src/parser.rs:90-111 | an expression or assignment statement consumes at least one token |
| Parser.StatementAt | src/parser.rs:72-118 | every successful statement consumes at least one token |
| Parser.Parser.constructor | src/parser.rs:26-33 | the first token is current |
| Parser.Parser.Advance | src/parser.rs:35-42 | returns the old current token; the new current token is the one `peek` showed before the call (the next token); at the end the position stays put |
| Parser.Parser.CurrentIs | src/parser.rs:45-46 | true iff the current token has kind `k` |
| Parser.Parser.Expect | src/parser.rs:44-60 | computes `ExpectAt` and moves the cursor as it does |
| Parser.Parser.ParseProgram | src/parser.rs:62-70 | the statement loop computes `ProgramAt` |
| Parser.Parser.ParseStatement | src/parser.rs:72-118 | computes `StatementAt` |
| Parser.Parser.ParseLetStatement | src/parser.rs:121-136 | computes `LetAt` |
| Parser.Parser.ParseLetRest | src/parser.rs:138-168 | computes `LetRestAt` |
| Parser.Parser.ParseAnnotation | src/parser.rs:138-145 | computes `AnnotationAt` |
| Parser.Parser.ParseInitializer | src/parser.rs:147-154 | computes `InitializerAt` |
| Parser.Parser.ParseFunctionDeclaration | src/parser.rs:172-188 | computes `FunctionDeclarationAt` |
| Parser.Parser.ParseNamedFunction | src/parser.rs:190-206 | computes `NamedFunctionAt` |
| Parser.Parser.ParseAfterParameters | src/parser.rs:219-235 | computes `AfterParametersAt` |
| Parser.Parser.ParseReturnType | src/parser.rs:237-264 | computes `ReturnTypeAt` |
| Parser.Parser.ParseFunctionBody | src/parser.rs:266-326 | computes `BodyAt` |
| Parser.Parser.SkipParameterList | src/parser.rs:211-217 | the skip loop stops where `SkipToRightParen` says |
| Parser.Parser.SkipFunctionBody | src/parser.rs:287-299 | the brace-counting loop stops where `SkipBody` says |
| Parser.Parser.ParseExpression | src/parser.rs:385-388 | computes `ExpressionAt` |
| Parser.Parser.ParsePrimaryExpression | src/parser.rs:390-434 | computes `PrimaryAt` |
| Parser.Parser.ParseType | src/parser.rs:436-493 | computes `TypeAt` |
| Parser.Parser.ParseFunctionType | src/parser.rs:459-481 | computes `FunctionTypeAt` |
| Parser.Parser.ParseParameterTypes | src/parser.rs:463-474 | the `loop` computes `ParamTypesAt` |
| Parser.Parse | src/parser.rs:496-499 | `parse` is `ParseTokens` |
| Parser.PrependNoStatements | src/parser.rs:63-66 | accumulating nothing changes no result |
| Parser.PrependOneStatement | src/parser.rs:63-66 | pushing statements one at a time composes |
| Parser.PrependNoTypes | src/parser.rs:463-466 | accumulating no types changes no result |
| Parser.PrependOneType | src/parser.rs:463-466 | pushing types one at a time composes |
| ParserProperties.ProgramLength | src/parser.rs:62-70 | a program never has more statements than tokens |
| ParserProperties.ProgramInOrder | src/parser.rs:62-70 | statements come out in source order |
| ParserProperties.FirstErrorAborts | src/parser.rs:65-67 | the first failing statement's error is the program's error |
| ParserProperties.StatementAtEnd | src/parser.rs:113-116 | no token left: `UnexpectedEndOfFile` at `0..0` |
| ParserProperties.UnimplementedStatement | src/parser.rs:75-89 | `return`, `while`, `for`, `struct`, `import`, `if`, `{` always fail with a not-implemented error at `0..0` |
| ParserProperties.ProgramRejectsUnimplemented | src/parser.rs:329-383 | a program reaching such a statement fails |
| ParserProperties.PrimaryTokens | src/parser.rs:390-427 | exactly seven token kinds start an expression, each with its placeholder value and its own span |
| ParserProperties.AssignmentStatement | src/parser.rs:93-100 | `e = v` gives `Assign(e, v, span of =)` and stops after `v` |
| ParserProperties.AssignmentThenSemicolon | src/parser.rs:93-100 | the `;` after an assignment is left and then fails as a statement |
| ParserProperties.ExpressionStatementSemicolon | src/parser.rs:103-110 | an expression statement consumes at most one `;` |
| ParserProperties.NotAStatement | src/parser.rs:90-91 | any other token errs as unexpected, at its span |
| ParserProperties.LetWithoutName | src/parser.rs:126-136 | `let` without an identifier errs at the `let` span |
| ParserProperties.LetShape | src/parser.rs:163-168 | a parsed `let` is named `identifier` and has the `let` span |
| ParserProperties.LetBare | src/parser.rs:121-168 | `let x` needs neither annotation nor initializer, and `;` is optional |
| ParserProperties.LetAnnotatedAndInitialized | src/parser.rs:138-168 | `let x: T = e` keeps both parts |
| ParserProperties.SkipToRightParenFirst | src/parser.rs:211-217 | the skip stops at the first `)` |
| ParserProperties.SkipToRightParenNone | src/parser.rs:211-217 | without a `)` the skip reaches the end |
| ParserProperties.SkipBodyBalance | src/parser.rs:287-299 | the counter stays at least 1 until the `}` that brings it to 0 |
| ParserProperties.SkipBodyRunsOut | src/parser.rs:287-299 | a body that never closes runs to the end |
| ParserProperties.FunctionShape | src/parser.rs:172-326 | a declaration is `main` with no parameters, an empty block body, and it ends on `}` |
| ParserProperties.FunctionReturnType | src/parser.rs:238-264 | the return type is `Int` iff `->` follows the parameters, else `Void` |
| ParserProperties.FunctionWithoutRightParen | src/parser.rs:219-232 | no `)` means an error at the `fn` keyword |
| ParserProperties.BodyWithoutRightBrace | src/parser.rs:301-314 | running out of input in the body errs at the `fn` keyword |
| ParserProperties.TypeIdentifier | src/parser.rs:440-451 | an identifier type is always `Struct("type")` |
| ParserProperties.ArrayTypeStep | src/parser.rs:453-458 | `[ T ]` yields `Array(T)` |
| ParserProperties.FunctionTypeStep | src/parser.rs:459-481 | `fn ( Ts ) -> R` yields `Function(Ts, R)` |
| ParserProperties.TypeListStep | src/parser.rs:465-473 | `T , rest` yields `[T] + rest` |
| ParserProperties.TypeRoundTrip | src/parser.rs:436-493 | a spelled type is parsed back to itself, consuming exactly its tokens |
| ParserProperties.ParamTypesRoundTrip | src/parser.rs:463-474 | spelled parameter types, including none, are parsed back |
| ParserProperties.ListRoundTrip | src/parser.rs:465-473 | a spelled comma list is parsed back |
| ParserProperties.ArrayTypeRead | src/parser.rs:453-458 | a parsed array type consists of `[`, a type and `]` |
| ParserProperties.FunctionTypeRead | src/parser.rs:459-481 | a parsed function type consists of `fn ( params ) -> R` |
| ParserProperties.TypeListRead | src/parser.rs:465-473 | the list loop continues exactly after a comma |
| ParserProperties.TypeAtSpelled | src/parser.rs:436-493 | whatever is parsed as a type spells that type |
| ParserProperties.FunctionTypeSpelled | src/parser.rs:459-481 | a parsed function type spells it |
| ParserProperties.ParamTypesSpelled | src/parser.rs:463-474 | parsed parameter types spell them |
| ParserProperties.ListSpelled | src/parser.rs:465-473 | a parsed list spells it and is not followed by a comma |
| ParserProperties.TypeAtSpelling | src/parser.rs:436-493 | parsing gives `t` iff the tokens spell `t` (both directions) |
| ParserProperties.LetExample | src/parser.rs:121-168 | the tokens of `let x: int = 5;` parse to one placeholder `let` |
| ParserProperties.FunctionExample | src/parser.rs:172-326 | `fn f(a) -> int { {} } 1` parses to `main` then an expression |
| ParserProperties.AssignmentExample | src/parser.rs:93-100 | `x = 1;` fails on the `;` |
| Typechecker.CheckBinaryOp | src/typechecker.rs:146-194 | errors are `InvalidOperands` at the operator span; results are Int, Float, String or Bool |
| Typechecker.CheckTypeCompatibility | src/typechecker.rs:196-205 | Ok iff the types are equal, else a mismatch naming expected and found |
| Typechecker.CheckExpression | src/typechecker.rs:108-144 | a checked expression is returned unchanged |
| Typechecker.LetType | src/typechecker.rs:73-85 | an annotation is the bound type |
| Typechecker.CheckInitializer | src/typechecker.rs:88-96 | a checked initializer is unchanged |
| Typechecker.CheckedStatement | src/typechecker.rs:70-106 | only `let` is checked; it binds exactly its name; other statements pass unchanged |
| Typechecker.CheckedStatements | src/typechecker.rs:62-67 | success returns the same statements |
| Typechecker.PrependNothing | src/typechecker.rs:62-64 | accumulating nothing changes nothing |
| Typechecker.PrependOne | src/typechecker.rs:62-64 | pushing checked statements one at a time composes |
| Typechecker.ParamTypes | src/typechecker.rs:47 | the parameter types, in order |
| Typechecker.ProgramChecked | src/typechecker.rs:208-211 | success returns the same program |
| Typechecker.TypeChecker.constructor | src/typechecker.rs:33-40 | all tables start empty |
| Typechecker.TypeChecker.CheckProgram | src/typechecker.rs:42-68 | registers every declaration first, then checks the statements in order, stopping at the first error |
| Typechecker.TypeChecker.RegisterDeclarations | src/typechecker.rs:44-59 | the function and struct tables become the registered ones; nothing else changes |
| Typechecker.TypeChecker.FieldTypes | src/typechecker.rs:51-54 | the field table of a struct |
| Typechecker.TypeChecker.CheckStatement | src/typechecker.rs:70-106 | computes `CheckedStatement`; on error the variables are unchanged |
| Typechecker.Typecheck | src/typechecker.rs:208-211 | `typecheck` is `ProgramChecked` on a fresh checker |
| TypecheckerProperties.ArithmeticTyping | src/typechecker.rs:148-155 | Int iff both Int; Float iff both numeric and one Float; `- * / %` succeed iff both numeric |
| TypecheckerProperties.AddTyping | src/typechecker.rs:156-163 | `+` succeeds iff both numeric or one is String; one String gives String |
| TypecheckerProperties.StringOperands | src/typechecker.rs:156-163 | String + Bool is String; String - Int is an error at the span |
| TypecheckerProperties.EqualityTyping | src/typechecker.rs:165-168 | `==`, `!=` give Bool for all operand types |
| TypecheckerProperties.ComparisonTyping | src/typechecker.rs:169-182 | comparisons give Bool iff both operands are numeric, and err otherwise |
| TypecheckerProperties.LogicalTyping | src/typechecker.rs:183-192 | `&&`, `||` give Bool iff both are Bool, and err otherwise |
| TypecheckerProperties.LiteralTyping | src/typechecker.rs:110-119 | literal types; `null` is Void |
| TypecheckerProperties.IdentifierTyping | src/typechecker.rs:120-129 | an identifier checks iff it is bound, with its bound type; otherwise undefined at its span |
| TypecheckerProperties.BinaryTyping | src/typechecker.rs:130-140 | the left operand's error first, then the right's, then the operator's |
| TypecheckerProperties.OtherExpressionsInferred | src/typechecker.rs:142 | every other form is `Inferred` |
| TypecheckerProperties.LetWithoutTypeOrValue | src/typechecker.rs:79-84 | neither annotation nor initializer: cannot infer, at the span |
| TypecheckerProperties.LetAnnotated | src/typechecker.rs:72-101 | the init must have exactly the annotated type; the variable is bound to the annotation |
| TypecheckerProperties.LetInferred | src/typechecker.rs:75-78 | without annotation the init's type is bound |
| TypecheckerProperties.LetCheckedBeforeBinding | src/typechecker.rs:88-99 | `let x = x` with `x` unbound is an undefined variable |
| TypecheckerProperties.FloatAnnotationRejectsInt | src/typechecker.rs:90-92 | `let y: float = 5` is a Float/Int mismatch |
| TypecheckerProperties.CheckedStatementsSplit | src/typechecker.rs:62-67 | checking `a + b` is checking `a`, then `b` in the resulting table |
| TypecheckerProperties.FirstErrorAborts | src/typechecker.rs:63-65 | the first failing statement's error is the result |
| TypecheckerProperties.BindingVisibleLater | src/typechecker.rs:99 | a binding is visible to the statements after it |
| TypecheckerProperties.FunctionNamesCons | src/typechecker.rs:44-49 | names declared by a list, first one first |
| TypecheckerProperties.StructNamesCons | src/typechecker.rs:50-55 | struct names declared by a list, first one first |
| TypecheckerProperties.RegisteredFunctions | src/typechecker.rs:44-49 | registered names are exactly the old ones plus the declared ones |
| TypecheckerProperties.RegisteredStructs | src/typechecker.rs:50-56 | as above for structs |
| TypecheckerProperties.UndeclaredFunctionKept | src/typechecker.rs:48 | an entry not redeclared is kept |
| TypecheckerProperties.LastDeclarationWins | src/typechecker.rs:48 | the last declaration of a name gives its signature |
| TypecheckerProperties.RegisterFunctionsAppend | src/typechecker.rs:44-49 | registration over `a + b` is over `a`, then `b` |
| TypecheckerProperties.FieldTableKeys | src/typechecker.rs:51-54 | the field table's keys are the field names |
| Codegen.Indent | src/codegen.rs:29-31 | exactly `4 * level` spaces |
| Codegen.Inner | src/codegen.rs:232-233 | re-quoting the inner text gives the code back |
| Codegen.AddCode | src/codegen.rs:226-240 | two quoted codes fold into a quoted code of both inner texts; a quoted left alone goes to `concat_str_int` |
| Codegen.ArgsCode | src/codegen.rs:274-277 | one code per argument, in order |
| Codegen.CodeGenerator.constructor | src/codegen.rs:25-27 | the level starts at 0 |
| Codegen.CodeGenerator.Generate | src/codegen.rs:33-98 | produces `ProgramCode` and restores the level; never returns `Err` (with the corrected string fold) |
| Codegen.CodeGenerator.GenerateStatement | src/codegen.rs:101-207 | produces `StatementCode` and restores the level |
| Codegen.CodeGenerator.GenerateIf | src/codegen.rs:105-145 | produces `IfCode`; each `+= 1` is undone |
| Codegen.CodeGenerator.GenerateWhile | src/codegen.rs:186-203 | produces `WhileCode`; the `+= 1` is undone |
| Codegen.CodeGenerator.GenerateBody | src/codegen.rs:191-198 | a loop body one level deeper |
| Codegen.CodeGenerator.GenerateBranch | src/codegen.rs:110-120 | an `if` branch one level deeper |
| Codegen.CodeGenerator.GenerateBlock | src/codegen.rs:112-114 | the statement loop produces `StatementsCode` |
| Codegen.GenerateIr | src/codegen.rs:287-290 | a fresh generator's output, always `Ok` (with the corrected string fold) |
| CodegenProperties.OpSymbolInjective | src/codegen.rs:243-257 | distinct operators get distinct C symbols |
| CodegenProperties.LiteralLowering | src/codegen.rs:215-217 | `1`/`0`, `NULL`, a string between quotes with its text inside |
| CodegenProperties.QuoteRoundTrip | src/codegen.rs:216 | a quoted text's inner part is that text |
| CodegenProperties.IntLiteralReadsBack | src/codegen.rs:213 | an integer's code reads back as the integer |
| CodegenProperties.BinaryLowering | src/codegen.rs:243-259 | `(l op r)` when not folding |
| CodegenProperties.StringsFold | src/codegen.rs:229-235 | two quoted codes fold into one literal of both inner texts |
| CodegenProperties.StringChainExample | src/codegen.rs:226-235 | `"a" + "b" + "c"` lowers to `"abc"` |
| CodegenProperties.ConcatFallback | src/codegen.rs:236-239 | quoted left, unquoted right: `concat_str_int(l, r)` |
| CodegenProperties.FloatGoesToIntHelper | src/codegen.rs:236-239 | `"x" + 2.5` uses the integer helper too |
| CodegenProperties.QuotedRightAlone | src/codegen.rs:226-227 | a quoted right operand alone is a plain `+` |
| CodegenProperties.UnaryLowering | src/codegen.rs:261-270 | `(op e)` without a space |
| CodegenProperties.CallLowering | src/codegen.rs:271-280 | `f()` or `f(a1, …)`, joined by `, ` |
| CodegenProperties.UnhandledExpression | src/codegen.rs:282 | the placeholder comment |
| CodegenProperties.LetAlwaysInt | src/codegen.rs:171-179 | always `int`; the annotation is irrelevant; no initializer is `= 0` |
| CodegenProperties.AssignLowering | src/codegen.rs:180-184 | `t = v;` on one line; a `let` is that line after `int ` |
| CodegenProperties.MainInlined | src/codegen.rs:153-165 | `main` inlines its block at the current level, otherwise nothing |
| CodegenProperties.OtherFunctionComment | src/codegen.rs:166-169 | other functions become a comment depending on the name only |
| CodegenProperties.UnhandledStatement | src/codegen.rs:205 | other statements become the placeholder comment |
| CodegenProperties.WhileSingletonBlock | src/codegen.rs:191-198 | a one-statement block body lowers like the bare statement |
| CodegenProperties.BranchSingletonBlock | src/codegen.rs:110-119 | a one-expression block branch lowers like the bare expression |
| CodegenProperties.StatementsCodeAppend | src/codegen.rs:88-90 | lowering a list is lowering its parts one after the other |
| CodegenProperties.LinesConcat | src/codegen.rs:101-207 | whole lines stay whole lines when joined |
| CodegenProperties.StatementLines | src/codegen.rs:101-207 | every statement is whole lines starting with its level's indent |
| CodegenProperties.StatementsLines | src/codegen.rs:88-90 | so is every statement list |
| CodegenProperties.GeneratedFile | src/codegen.rs:33-98 | preamble, `int main() {`, the statements at level 1, `    return 0;`, `}` |
| CodegenProperties.EmptyProgram | src/codegen.rs:84-96 | an empty program still gets `main` returning 0 |
| CodegenProperties.PreambleDeclaresRuntime | src/codegen.rs:39-81 | the runtime declares the print and concatenation helpers |
| CodegenProperties.LoneQuotePanics | src/codegen.rs:227-233 | as written, a lone `"` passes the quote test and the slice is invalid |
| CodegenProperties.AddCodeAgrees | src/codegen.rs:226-240 | without a lone `"`, the as-written lowering equals the corrected one |
| Optimizer.RenderAll | src/optimizer.rs:20-73 | one rendered text per line, in order |
| Optimizer.Optimize | src/optimizer.rs:16-76 | always `Ok` |
| Optimizer.OptimizeKeepsCode | src/optimizer.rs:72-75 | the header, an empty line, then the code unchanged |
| Optimizer.HeaderNamesLevel | src/optimizer.rs:23-24 | the first two lines; the number reads back as the level |
| Optimizer.LevelZeroPlain | src/optimizer.rs:28-30 | level 0 emits only comments |
| Optimizer.HighLevelsAlike | src/optimizer.rs:46-69 | levels above 3 emit the same lines after the first, which differs iff the level does |
| Optimizer.LevelDirectives | src/optimizer.rs:27-70 | `Z_OPT_LEVEL` is never, 1, 2, 3 at levels 0, 1, 2, ≥3; includes only at ≥3, only inside `#ifdef`/`#endif`: `immintrin.h` under `__SSE__`, then `omp.h` under `_OPENMP` |
| Optimizer.LevelOneDirectives | src/optimizer.rs:31-35 | level 1 defines `Z_OPT_LEVEL 1` only |
| Optimizer.LevelTwoDirectives | src/optimizer.rs:36-45 | level 2 defines `Z_OPT_LEVEL 2` and includes nothing |
| Optimizer.HighLevelDirectives | src/optimizer.rs:46-69 | level ≥3 defines `Z_OPT_LEVEL 3`, includes `immintrin.h` under `#ifdef __SSE__`, then `omp.h` under `#ifdef _OPENMP`, each closed by `#endif` |
| Optimizer.FeatureTail | src/optimizer.rs:55-68 | the hints and feature tests include the two headers, each guarded by its own test's feature |
| Optimizer.PlainGuards | src/optimizer.rs:47-56 | comments and `#define`s in front change neither the includes nor the open `#ifdef` feature |
| Optimizer.FeatureTestGuards | src/optimizer.rs:59-62 | a feature test includes its header under its own feature and closes the test |
| Optimizer.BranchHints | src/optimizer.rs:43-44 | `likely`/`unlikely` appear iff the level is at least 2 |

## Left out

- The lexer's scanner (`lex`, the `logos` derive and its regular expressions) is not modelled. The model takes tokens as input; only `Token` and the `{token, span}` record are modelled.
- `Token`'s `Display` and all error `Display` text: errors are kinds and spans.
- Floating point: a float literal is its display text, opaque.
- Parser structure:
  - `parse_let_statement`, `parse_function_declaration` and `parse_type` are each split into several methods, one per phase, each proved against its own grammar function.
  - The two skip loops are their own methods.
- The checks for `)` and `}` right after the skip loops are left out. The loops stop only on those tokens or at the end, so the mismatch branches cannot run. Running out of input is modelled.
- Parser.Parser.Expect and the other parsing methods: the cursor after a failed parse is not stated. A parse is abandoned at its first error.
- Placeholder parsers (`parse_return_statement`, `parse_while_statement`, `parse_for_statement`, `parse_struct_declaration`, `parse_import_statement`, `parse_if_expression`, `parse_block_expression`) are modelled as the constant errors they return, with no contract of their own.
- Typechecker.TypeChecker: `current_return_type` is kept but never read or written after `new` (as in the source).
- Codegen.CodeGenerator: its methods return the text itself, not `Result`. The source never returns `Err` there. `Generate` and `GenerateIr` wrap the text in `Ok`, and the level on the `?` error path needs no statement.
- Codegen.ExprCode: the whole generator (`ExprCode`, every `CodeGenerator` method, `Generate` and `GenerateIr`) uses the corrected string fold of "## Findings". Where the source panics on a lone `"` code (src/codegen.rs:232), the model returns text.
- `generate_expression` is a function, `ExprCode`. It changes no state; its argument loop only collects the argument codes.
- `generate_executable` (temporary files, running a C compiler) and `lib.rs`/`main.rs`/`error.rs` (file I/O, timing, printing, command line, diagnostics rendering) are not modelled.
- The optimizer's header is built as a list of structured lines that `Render` turns into the exact texts. Properties are stated on the lines, not on the concatenated text.

## Findings

| source | as written | input that shows it | evidently intended | confidence | as-written member | corrected member |
|---|---|---|---|---|---|---|
| src/codegen.rs:227-233 | The `starts_with("\"")` and `ends_with("\"")` tests both accept the one-character code `"`. The slice `[1..len-1]` is then `[1..0]`, which panics. | `Binary(Identifier("\""), Add, Literal(String("x")))`. Only a hand-built AST can reach it; the parser never names an identifier `"`. | Fold only codes of at least two characters that start and end with a quote. | not executed; low to medium: a hand-built AST is needed to reach it | CodegenProperties.LoneQuotePanics | Codegen.AddCode |
