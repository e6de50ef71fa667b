/** The recursive-descent parser.

    The grammar is first written as functions of a token sequence `toks` and the
    index `p` of the current token (`p == |toks|` once the input is exhausted);
    each returns the parsed value and the index of the first token after it.
    The class `Parser` then keeps the source's mutable cursor (the current token
    and the position of the token iterator) and its methods are proved to compute
    exactly what those functions describe. */
module Parser {
  import opened Wrappers
  import opened Ast
  import L = Lexer

  type Tokens = seq<L.LexerSpan>

  /** The unimplemented productions. */
  datatype Construct =
    | ReturnStatement | WhileStatement | ForStatement | StructDeclaration
    | ImportStatement | IfExpression | BlockExpression

  /** What a parse error reports (its message text is not modelled). */
  datatype ErrorKind =
    | ExpectedToken(expected: L.Token, found: Option<L.Token>)
    | UnexpectedEndOfFile
    | ExpectedIdentifierAfterLet
    | ExpectedFunctionName
    | ExpectedLeftParen
    | ExpectedRightParen
    | ExpectedReturnType
    | ExpectedLeftBrace
    | ExpectedRightBrace
    | NotImplemented(construct: Construct)
    | UnexpectedToken(token: L.Token)
    | ExpectedType(got: L.Token)
    | EndOfFileInType

  datatype ParseError = ParseError(kind: ErrorKind, span: Span)

  /** A parsed value and the index of the first token after it. */
  datatype Step<+T> = Step(value: T, next: nat)

  type Parsed<T> = Result<Step<T>, ParseError>

  /** The span reported for errors at the end of input. */
  const EofSpan := Span(0, 0)
  /** The name given to every identifier and every `let` binding. */
  const PlaceholderIdentifier := "identifier"
  /** The name given to every declared function. */
  const MainName := "main"
  /** The name every type identifier is read as. */
  const PlaceholderTypeName := "type"
  /** The value of every integer literal. */
  const PlaceholderInt: i64 := 42
  /** The value of every float literal. */
  const PlaceholderFloat := Float64("3.14")
  /** The contents of every string literal. */
  const PlaceholderString := "string"

  /** The token at index `p`, `None` at the end of input. */
  function TokenAt(toks: Tokens, p: nat): Option<L.LexerSpan> {
    if p < |toks| then Some(toks[p]) else None
  }

  /** The current token at index `p` exists and has kind `k`. */
  predicate At(toks: Tokens, p: nat, k: L.Token) {
    p < |toks| && toks[p].token == k
  }

  /** `expect`: the current token must have kind `k`; it is consumed and returned. */
  function ExpectAt(toks: Tokens, p: nat, k: L.Token): (r: Parsed<L.LexerSpan>)
    requires p <= |toks|
    ensures r.Ok? <==> At(toks, p, k)
    ensures r.Ok? ==> r.value == Step(toks[p], p + 1)
    ensures r.Err? && p < |toks| ==> r.error.span == SpanFrom(toks[p].span)
    ensures p == |toks| ==> r.Err? && r.error.span == EofSpan
  {
    if p < |toks| then
      if toks[p].token == k then Ok(Step(toks[p], p + 1))
      else Err(ParseError(ExpectedToken(k, Some(toks[p].token)), SpanFrom(toks[p].span)))
    else
      Err(ParseError(ExpectedToken(k, None), EofSpan))
  }

  // ---------------------------------------------------------------- expressions

  /** The expression a token of kind `k` at `span` stands for, if it starts one. */
  function PrimaryFor(k: L.Token, span: Span): Option<Expr> {
    if k == L.IntLiteral then Some(Expr.Literal(Literal.Int(PlaceholderInt), span))
    else if k == L.FloatLiteral then Some(Expr.Literal(Literal.Float(PlaceholderFloat), span))
    else if k == L.StringLiteral then Some(Expr.Literal(Literal.String(PlaceholderString), span))
    else if k == L.True then Some(Expr.Literal(Literal.Bool(true), span))
    else if k == L.False then Some(Expr.Literal(Literal.Bool(false), span))
    else if k == L.Null then Some(Expr.Literal(Literal.Null, span))
    else if k == L.Identifier then Some(Expr.Identifier(PlaceholderIdentifier, span))
    else None
  }

  /** `parse_primary_expression`: one literal or identifier token, with placeholder contents. */
  function PrimaryAt(toks: Tokens, p: nat): (r: Parsed<Expr>)
    requires p <= |toks|
    ensures r.Ok? ==> r.value.next == p + 1
  {
    if p == |toks| then Err(ParseError(UnexpectedEndOfFile, EofSpan))
    else
      var span := SpanFrom(toks[p].span);
      match PrimaryFor(toks[p].token, span)
      case Some(e) => Ok(Step(e, p + 1))
      case None => Err(ParseError(UnexpectedToken(toks[p].token), span))
  }

  /** `parse_expression`: only a primary expression. */
  function ExpressionAt(toks: Tokens, p: nat): (r: Parsed<Expr>)
    requires p <= |toks|
    ensures r.Ok? ==> r.value.next == p + 1
  {
    PrimaryAt(toks, p)
  }

  function ParseIfExpression(): Result<Expr, ParseError> {
    Err(ParseError(NotImplemented(IfExpression), EofSpan))
  }

  function ParseBlockExpression(): Result<Expr, ParseError> {
    Err(ParseError(NotImplemented(BlockExpression), EofSpan))
  }

  // ---------------------------------------------------------------- types

  /** The mapping from a type name to a type. */
  function NamedType(name: string): Type {
    if name == "int" then Type.Int
    else if name == "float" then Type.Float
    else if name == "bool" then Type.Bool
    else if name == "string" then Type.String
    else if name == "void" then Type.Void
    else Type.Struct(name)
  }

  /** `parse_type`: an identifier, `[` type `]`, or `fn (` types `) ->` type. */
  function TypeAt(toks: Tokens, p: nat): (r: Parsed<Type>)
    requires p <= |toks|
    ensures r.Ok? ==> p < r.value.next <= |toks|
    decreases |toks| - p, 3
  {
    if p == |toks| then Err(ParseError(EndOfFileInType, EofSpan))
    else
      var k := toks[p].token;
      if k == L.Identifier then Ok(Step(NamedType(PlaceholderTypeName), p + 1))
      else if k == L.LeftBracket then ArrayTypeAt(toks, p)
      else if k == L.Fn then FunctionTypeAt(toks, p)
      else Err(ParseError(ExpectedType(k), SpanFrom(toks[p].span)))
  }

  /** `[` type `]`, entered on the `[` at `p`. */
  function ArrayTypeAt(toks: Tokens, p: nat): (r: Parsed<Type>)
    requires p < |toks|
    ensures r.Ok? ==> p < r.value.next <= |toks|
    decreases |toks| - p, 2
  {
    match TypeAt(toks, p + 1)
    case Err(e) => Err(e)
    case Ok(elem) =>
      match ExpectAt(toks, elem.next, L.RightBracket)
      case Err(e) => Err(e)
      case Ok(close) => Ok(Step(Type.Array(elem.value), close.next))
  }

  /** `fn (` types `) ->` type, entered on the `fn` at `p`. */
  function FunctionTypeAt(toks: Tokens, p: nat): (r: Parsed<Type>)
    requires p < |toks|
    ensures r.Ok? ==> p < r.value.next <= |toks|
    decreases |toks| - p, 2
  {
    match ExpectAt(toks, p + 1, L.LeftParen)
    case Err(e) => Err(e)
    case Ok(open) =>
      match ParamTypesAt(toks, open.next)
      case Err(e) => Err(e)
      case Ok(params) =>
        match ExpectAt(toks, params.next, L.RightParen)
        case Err(e) => Err(e)
        case Ok(close) =>
          match ExpectAt(toks, close.next, L.Arrow)
          case Err(e) => Err(e)
          case Ok(arrow) =>
            match TypeAt(toks, arrow.next)
            case Err(e) => Err(e)
            case Ok(ret) => Ok(Step(Type.Function(params.value, ret.value), ret.next))
  }

  /** The parameter types of a function type: none when `)` follows at once. */
  function ParamTypesAt(toks: Tokens, p: nat): (r: Parsed<seq<Type>>)
    requires p <= |toks|
    ensures r.Ok? ==> p <= r.value.next <= |toks|
    decreases |toks| - p, 5
  {
    if At(toks, p, L.RightParen) then Ok(Step([], p)) else TypeListAt(toks, p)
  }

  /** One type, then further types for as long as a `,` follows. */
  function TypeListAt(toks: Tokens, p: nat): (r: Parsed<seq<Type>>)
    requires p <= |toks|
    ensures r.Ok? ==> p < r.value.next <= |toks| && |r.value.value| >= 1
    decreases |toks| - p, 4
  {
    match TypeAt(toks, p)
    case Err(e) => Err(e)
    case Ok(t) =>
      if At(toks, t.next, L.Comma) then
        match TypeListAt(toks, t.next + 1)
        case Err(e) => Err(e)
        case Ok(ts) => Ok(Step([t.value] + ts.value, ts.next))
      else Ok(Step([t.value], t.next))
  }

  /** `acc` put in front of a parsed list. */
  function PrependTypes(acc: seq<Type>, r: Parsed<seq<Type>>): Parsed<seq<Type>> {
    match r
    case Err(e) => Err(e)
    case Ok(s) => Ok(Step(acc + s.value, s.next))
  }

  lemma PrependNoTypes(r: Parsed<seq<Type>>)
    ensures PrependTypes([], r) == r
  {
    if r.Ok? {
      assert [] + r.value.value == r.value.value;
    }
  }

  lemma PrependOneType(acc: seq<Type>, t: Type, r: Parsed<seq<Type>>)
    ensures PrependTypes(acc, PrependTypes([t], r)) == PrependTypes(acc + [t], r)
  {
    if r.Ok? {
      assert acc + ([t] + r.value.value) == (acc + [t]) + r.value.value;
    }
  }

  // ---------------------------------------------------------------- statements

  /** An optional `;`. */
  function SkipSemicolon(toks: Tokens, p: nat): nat
    requires p <= |toks|
  {
    if At(toks, p, L.Semicolon) then p + 1 else p
  }

  /** An optional `: type`. */
  function AnnotationAt(toks: Tokens, p: nat): (r: Parsed<Option<Type>>)
    requires p <= |toks|
    ensures r.Ok? ==> p <= r.value.next <= |toks|
  {
    if At(toks, p, L.Colon) then
      match TypeAt(toks, p + 1)
      case Err(e) => Err(e)
      case Ok(t) => Ok(Step(Some(t.value), t.next))
    else Ok(Step(None, p))
  }

  /** An optional `= expression`. */
  function InitializerAt(toks: Tokens, p: nat): (r: Parsed<Option<Expr>>)
    requires p <= |toks|
    ensures r.Ok? ==> p <= r.value.next <= |toks|
  {
    if At(toks, p, L.Assign) then
      match ExpressionAt(toks, p + 1)
      case Err(e) => Err(e)
      case Ok(x) => Ok(Step(Some(x.value), x.next))
    else Ok(Step(None, p))
  }

  /** `parse_let_statement`, entered on the `let` token at `p`. */
  function LetAt(toks: Tokens, p: nat): (r: Parsed<Stmt>)
    requires p < |toks|
    ensures r.Ok? ==> p < r.value.next <= |toks|
  {
    var span := SpanFrom(toks[p].span);
    if !At(toks, p + 1, L.Identifier) then Err(ParseError(ExpectedIdentifierAfterLet, span))
    else LetRestAt(toks, span, p + 2)
  }

  /** The rest of a `let` after its name, from `p`: annotation, initializer, `;`. */
  function LetRestAt(toks: Tokens, span: Span, p: nat): (r: Parsed<Stmt>)
    requires p <= |toks|
    ensures r.Ok? ==> p <= r.value.next <= |toks|
  {
    match AnnotationAt(toks, p)
    case Err(e) => Err(e)
    case Ok(ann) =>
      match InitializerAt(toks, ann.next)
      case Err(e) => Err(e)
      case Ok(init) =>
        Ok(Step(Stmt.Let(PlaceholderIdentifier, ann.value, init.value, span), SkipSemicolon(toks, init.next)))
  }

  /** The index of the first `)` at or after `p`, or `|toks|` if there is none. */
  function SkipToRightParen(toks: Tokens, p: nat): (q: nat)
    requires p <= |toks|
    ensures p <= q <= |toks|
    ensures q < |toks| ==> toks[q].token == L.RightParen
    decreases |toks| - p
  {
    if p == |toks| || toks[p].token == L.RightParen then p else SkipToRightParen(toks, p + 1)
  }

  /** The skip over a function body with `braces` unclosed `{`: the index of the
      `}` that closes the last of them, or `|toks|` if input runs out first. */
  function SkipBody(toks: Tokens, p: nat, braces: int): (q: nat)
    requires p <= |toks| && braces >= 1
    ensures p <= q <= |toks|
    ensures q < |toks| ==> toks[q].token == L.RightBrace
    decreases |toks| - p
  {
    if p == |toks| then p
    else if toks[p].token == L.LeftBrace then SkipBody(toks, p + 1, braces + 1)
    else if toks[p].token == L.RightBrace then
      if braces - 1 == 0 then p else SkipBody(toks, p + 1, braces - 1)
    else SkipBody(toks, p + 1, braces)
  }

  /** The optional `-> type` of a declaration: only an identifier is accepted, read as `int`. */
  function ReturnTypeAt(toks: Tokens, p: nat, fallback: Span): (r: Parsed<Type>)
    requires p <= |toks|
    ensures r.Ok? ==> p <= r.value.next <= |toks|
  {
    if At(toks, p, L.Arrow) then
      if p + 1 == |toks| then Err(ParseError(ExpectedReturnType, fallback))
      else if toks[p + 1].token == L.Identifier then Ok(Step(Type.Int, p + 2))
      else Err(ParseError(ExpectedReturnType, SpanFrom(toks[p + 1].span)))
    else Ok(Step(Type.Void, p))
  }

  /** The first two bytes of a `fn` keyword starting at byte `start`: the span of
      the errors that have no offending token to point at. */
  function KeywordSpan(start: nat): Span {
    Span(start, start + 2)
  }

  /** `parse_function_declaration`, entered on the `fn` token at `p`. Parameters and
      body are skipped; the declaration is always named `main` with no parameters. */
  function FunctionDeclarationAt(toks: Tokens, p: nat): (r: Parsed<Stmt>)
    requires p < |toks|
    ensures r.Ok? ==> p < r.value.next <= |toks|
  {
    var start := toks[p].span.start;
    if !At(toks, p + 1, L.Identifier) then Err(ParseError(ExpectedFunctionName, KeywordSpan(start)))
    else NamedFunctionAt(toks, start, p + 2)
  }

  /** A declaration after its name, from `p`, which must be `(`. */
  function NamedFunctionAt(toks: Tokens, start: nat, p: nat): (r: Parsed<Stmt>)
    requires p <= |toks|
    ensures r.Ok? ==> p < r.value.next <= |toks|
  {
    if p == |toks| then Err(ParseError(ExpectedLeftParen, KeywordSpan(start)))
    else if toks[p].token != L.LeftParen then Err(ParseError(ExpectedLeftParen, SpanFrom(toks[p].span)))
    else AfterParametersAt(toks, start, SkipToRightParen(toks, p + 1))
  }

  /** The rest of a declaration once the parameter skip stopped at `close`. */
  function AfterParametersAt(toks: Tokens, start: nat, close: nat): (r: Parsed<Stmt>)
    requires close <= |toks|
    ensures r.Ok? ==> close < r.value.next <= |toks|
  {
    if close == |toks| then Err(ParseError(ExpectedRightParen, KeywordSpan(start)))
    else
      match ReturnTypeAt(toks, close + 1, KeywordSpan(start))
      case Err(e) => Err(e)
      case Ok(ret) => BodyAt(toks, start, ret.value, ret.next)
  }

  /** The body of a declaration with return type `ret`, which must open with `{` at `q`. */
  function BodyAt(toks: Tokens, start: nat, ret: Type, q: nat): (r: Parsed<Stmt>)
    requires q <= |toks|
    ensures r.Ok? ==> q < r.value.next <= |toks|
  {
    if q == |toks| then Err(ParseError(ExpectedLeftBrace, KeywordSpan(start)))
    else if toks[q].token != L.LeftBrace then Err(ParseError(ExpectedLeftBrace, SpanFrom(toks[q].span)))
    else DeclarationEndAt(toks, start, ret, SkipBody(toks, q + 1, 1))
  }

  /** The declaration once the body skip stopped at `last`; its span ends where the
      next token starts, or ten bytes after `fn` at the end of input. */
  function DeclarationEndAt(toks: Tokens, start: nat, ret: Type, last: nat): (r: Parsed<Stmt>)
    requires last <= |toks|
    ensures r.Ok? ==> r.value.next == last + 1 <= |toks|
  {
    if last == |toks| then Err(ParseError(ExpectedRightBrace, KeywordSpan(start)))
    else
      var endPos := if last + 1 < |toks| then toks[last + 1].span.start else start + 10;
      Ok(Step(Stmt.Function(MainName, [], ret, Stmt.Block([], KeywordSpan(start)), Span(start, endPos)), last + 1))
  }

  function ParseReturnStatement(): Result<Stmt, ParseError> {
    Err(ParseError(NotImplemented(ReturnStatement), EofSpan))
  }

  function ParseWhileStatement(): Result<Stmt, ParseError> {
    Err(ParseError(NotImplemented(WhileStatement), EofSpan))
  }

  function ParseForStatement(): Result<Stmt, ParseError> {
    Err(ParseError(NotImplemented(ForStatement), EofSpan))
  }

  function ParseStructDeclaration(): Result<Stmt, ParseError> {
    Err(ParseError(NotImplemented(StructDeclaration), EofSpan))
  }

  function ParseImportStatement(): Result<Stmt, ParseError> {
    Err(ParseError(NotImplemented(ImportStatement), EofSpan))
  }

  /** A production that reads no token: its result at position `p`. */
  function Still<T>(r: Result<T, ParseError>, p: nat): Parsed<T> {
    match r
    case Err(e) => Err(e)
    case Ok(v) => Ok(Step(v, p))
  }

  /** A parsed expression used as a statement. */
  function AsStatement(r: Result<Expr, ParseError>): (s: Result<Stmt, ParseError>)
    ensures s.Ok? <==> r.Ok?
    ensures s.Ok? ==> s.value == Stmt.Expr(r.value)
    ensures s.Err? ==> s.error == r.error
  {
    match r
    case Err(e) => Err(e)
    case Ok(x) => Ok(Stmt.Expr(x))
  }

  /** An expression wrapped as a statement. */
  function ExpressionStatement(r: Parsed<Expr>): Parsed<Stmt> {
    match r
    case Err(e) => Err(e)
    case Ok(x) => Ok(Step(Stmt.Expr(x.value), x.next))
  }

  /** The default statement form: an expression, which becomes the target of an
      assignment if `=` follows; otherwise one optional `;` is consumed. */
  function AssignmentOrExpressionAt(toks: Tokens, p: nat): (r: Parsed<Stmt>)
    requires p <= |toks|
    ensures r.Ok? ==> p < r.value.next <= |toks|
  {
    match ExpressionAt(toks, p)
    case Err(e) => Err(e)
    case Ok(lhs) =>
      if At(toks, lhs.next, L.Assign) then
        match ExpressionAt(toks, lhs.next + 1)
        case Err(e) => Err(e)
        case Ok(rhs) => Ok(Step(Stmt.Assign(lhs.value, rhs.value, SpanFrom(toks[lhs.next].span)), rhs.next))
      else Ok(Step(Stmt.Expr(lhs.value), SkipSemicolon(toks, lhs.next)))
  }

  /** `parse_statement`: dispatch on the current token. */
  function StatementAt(toks: Tokens, p: nat): (r: Parsed<Stmt>)
    requires p <= |toks|
    ensures r.Ok? ==> p < r.value.next <= |toks|
  {
    if p == |toks| then Err(ParseError(UnexpectedEndOfFile, EofSpan))
    else
      var k := toks[p].token;
      if k == L.Let then LetAt(toks, p)
      else if k == L.Fn then FunctionDeclarationAt(toks, p)
      else if k == L.Return then Still(ParseReturnStatement(), p)
      else if k == L.If then ExpressionStatement(Still(ParseIfExpression(), p))
      else if k == L.While then Still(ParseWhileStatement(), p)
      else if k == L.For then Still(ParseForStatement(), p)
      else if k == L.LeftBrace then ExpressionStatement(Still(ParseBlockExpression(), p))
      else if k == L.Struct then Still(ParseStructDeclaration(), p)
      else if k == L.Import then Still(ParseImportStatement(), p)
      else AssignmentOrExpressionAt(toks, p)
  }

  /** `parse_program`: statements until the input is exhausted; the first error aborts. */
  function ProgramAt(toks: Tokens, p: nat): Result<seq<Stmt>, ParseError>
    requires p <= |toks|
    decreases |toks| - p
  {
    if p == |toks| then Ok([])
    else match StatementAt(toks, p)
      case Err(e) => Err(e)
      case Ok(s) =>
        match ProgramAt(toks, s.next)
        case Err(e) => Err(e)
        case Ok(ss) => Ok([s.value] + ss)
  }

  /** `acc` put in front of the statements of a parse. */
  function PrependStatements(acc: seq<Stmt>, r: Result<seq<Stmt>, ParseError>): Result<seq<Stmt>, ParseError> {
    match r
    case Err(e) => Err(e)
    case Ok(ss) => Ok(acc + ss)
  }

  lemma PrependNoStatements(r: Result<seq<Stmt>, ParseError>)
    ensures PrependStatements([], r) == r
  {
    if r.Ok? {
      assert [] + r.value == r.value;
    }
  }

  lemma PrependOneStatement(acc: seq<Stmt>, s: Stmt, r: Result<seq<Stmt>, ParseError>)
    ensures PrependStatements(acc, PrependStatements([s], r)) == PrependStatements(acc + [s], r)
  {
    if r.Ok? {
      assert acc + ([s] + r.value) == (acc + [s]) + r.value;
    }
  }

  function ToProgram(r: Result<seq<Stmt>, ParseError>): Result<Program, ParseError> {
    match r
    case Err(e) => Err(e)
    case Ok(ss) => Ok(NewProgram(ss))
  }

  /** `parse`: the whole token sequence as a program. */
  function ParseTokens(toks: Tokens): Result<Program, ParseError> {
    ToProgram(ProgramAt(toks, 0))
  }

  // ---------------------------------------------------------------- the cursor

  /** A method that returned `r` and left the cursor at `pos` computed `spec`:
      its value on success, with the cursor on the token after the parsed text,
      and its error otherwise. */
  ghost predicate Yields<T>(spec: Parsed<T>, r: Result<T, ParseError>, pos: nat) {
    match spec
    case Ok(s) => r == Ok(s.value) && pos == s.next
    case Err(e) => r == Err(e)
  }

  class Parser {
    /** The token sequence the cursor walks. */
    const tokens: Tokens
    /** The index of the current token; `|tokens|` once the input is exhausted. */
    var pos: nat

    ghost predicate Valid()
      reads this
    {
      pos <= |tokens|
    }

    /** `current_token`. */
    function Current(): Option<L.LexerSpan>
      reads this
      requires Valid()
    {
      TokenAt(tokens, pos)
    }

    /** `new`: the first token becomes current. */
    constructor (tokens: Tokens)
      ensures Valid() && this.tokens == tokens && pos == 0
    {
      this.tokens := tokens;
      pos := 0;
    }

    /** `advance`: returns the current token and moves to the next one, if any. */
    method Advance() returns (previous: Option<L.LexerSpan>)
      requires Valid()
      modifies this
      ensures Valid() && previous == old(Current())
      ensures Current() == old(Peek())
      ensures pos == if old(pos) < |tokens| then old(pos) + 1 else old(pos)
    {
      previous := Current();
      if pos < |tokens| {
        pos := pos + 1;
      }
    }

    /** `peek`: the token after the current one. */
    function Peek(): (t: Option<L.LexerSpan>)
      reads this
      requires Valid()
      ensures pos < |tokens| ==> t == TokenAt(tokens, pos + 1)
      ensures pos == |tokens| ==> t.None?
    {
      if pos < |tokens| then TokenAt(tokens, pos + 1) else None
    }

    /** The current token exists and has kind `k`. */
    function CurrentIs(k: L.Token): (b: bool)
      reads this
      requires Valid()
      ensures b <==> At(tokens, pos, k)
    {
      Current().Some? && Current().value.token == k
    }

    /** `expect`. */
    method Expect(expected: L.Token) returns (r: Result<L.LexerSpan, ParseError>)
      requires Valid()
      modifies this
      ensures Valid() && Yields(ExpectAt(tokens, old(pos), expected), r, pos)
    {
      match Current()
      case Some(token) =>
        if token.token == expected {
          var t := Advance();
          r := Ok(t.value);
        } else {
          r := Err(ParseError(ExpectedToken(expected, Some(token.token)), SpanFrom(token.span)));
        }
      case None =>
        r := Err(ParseError(ExpectedToken(expected, None), EofSpan));
    }

    /** `parse_program`. */
    method ParseProgram() returns (r: Result<Program, ParseError>)
      requires Valid()
      modifies this
      ensures Valid() && r == ToProgram(ProgramAt(tokens, old(pos)))
    {
      ghost var p0 := pos;
      var statements: seq<Stmt> := [];
      PrependNoStatements(ProgramAt(tokens, p0));
      while Current().Some?
        invariant Valid()
        invariant ProgramAt(tokens, p0) == PrependStatements(statements, ProgramAt(tokens, pos))
        decreases |tokens| - pos
      {
        ghost var p := pos;
        var s := ParseStatement();
        if s.Err? {
          return Err(s.error);
        }
        assert ProgramAt(tokens, p) == PrependStatements([s.value], ProgramAt(tokens, pos));
        PrependOneStatement(statements, s.value, ProgramAt(tokens, pos));
        statements := statements + [s.value];
      }
      assert statements + [] == statements;
      r := Ok(NewProgram(statements));
    }

    /** `parse_statement`. */
    method ParseStatement() returns (r: Result<Stmt, ParseError>)
      requires Valid()
      modifies this
      ensures Valid() && Yields(StatementAt(tokens, old(pos)), r, pos)
    {
      if Current().None? {
        return Err(ParseError(UnexpectedEndOfFile, EofSpan));
      }
      var k := Current().value.token;
      if k == L.Let {
        r := ParseLetStatement();
      } else if k == L.Fn {
        r := ParseFunctionDeclaration();
      } else if k == L.Return {
        r := ParseReturnStatement();
      } else if k == L.If {
        var x := ParseIfExpression();
        r := AsStatement(x);
      } else if k == L.While {
        r := ParseWhileStatement();
      } else if k == L.For {
        r := ParseForStatement();
      } else if k == L.LeftBrace {
        var x := ParseBlockExpression();
        r := AsStatement(x);
      } else if k == L.Struct {
        r := ParseStructDeclaration();
      } else if k == L.Import {
        r := ParseImportStatement();
      } else {
        var lhs := ParseExpression();
        if lhs.Err? {
          return Err(lhs.error);
        }
        if CurrentIs(L.Assign) {
          var span := Current().value.span;
          var _ := Advance();
          var value := ParseExpression();
          if value.Err? {
            return Err(value.error);
          }
          return Ok(Stmt.Assign(lhs.value, value.value, SpanFrom(span)));
        }
        if CurrentIs(L.Semicolon) {
          var _ := Advance();
        }
        r := Ok(Stmt.Expr(lhs.value));
      }
    }

    /** `parse_let_statement`. */
    method ParseLetStatement() returns (r: Result<Stmt, ParseError>)
      requires Valid() && Current().Some?
      modifies this
      ensures Valid() && Yields(LetAt(tokens, old(pos)), r, pos)
    {
      var letToken := Advance();
      var span := SpanFrom(letToken.value.span);
      if !CurrentIs(L.Identifier) {
        return Err(ParseError(ExpectedIdentifierAfterLet, span));
      }
      var _ := Advance();
      r := ParseLetRest(span);
    }

    /** The part of `parse_let_statement` after the name. */
    method ParseLetRest(span: Span) returns (r: Result<Stmt, ParseError>)
      requires Valid()
      modifies this
      ensures Valid() && Yields(LetRestAt(tokens, span, old(pos)), r, pos)
    {
      var annotation := ParseAnnotation();
      if annotation.Err? {
        return Err(annotation.error);
      }
      var initializer := ParseInitializer();
      if initializer.Err? {
        return Err(initializer.error);
      }
      if CurrentIs(L.Semicolon) {
        var _ := Advance();
      }
      r := Ok(Stmt.Let(PlaceholderIdentifier, annotation.value, initializer.value, span));
    }

    /** The optional `: type` of a `let`. */
    method ParseAnnotation() returns (r: Result<Option<Type>, ParseError>)
      requires Valid()
      modifies this
      ensures Valid() && Yields(AnnotationAt(tokens, old(pos)), r, pos)
    {
      r := Ok(None);
      if CurrentIs(L.Colon) {
        var _ := Advance();
        var t := ParseType();
        r := if t.Ok? then Ok(Some(t.value)) else Err(t.error);
      }
    }

    /** The optional `= expression` of a `let`. */
    method ParseInitializer() returns (r: Result<Option<Expr>, ParseError>)
      requires Valid()
      modifies this
      ensures Valid() && Yields(InitializerAt(tokens, old(pos)), r, pos)
    {
      r := Ok(None);
      if CurrentIs(L.Assign) {
        var _ := Advance();
        var x := ParseExpression();
        r := if x.Ok? then Ok(Some(x.value)) else Err(x.error);
      }
    }

    /** `parse_function_declaration`. */
    method ParseFunctionDeclaration() returns (r: Result<Stmt, ParseError>)
      requires Valid() && Current().Some?
      modifies this
      ensures Valid() && Yields(FunctionDeclarationAt(tokens, old(pos)), r, pos)
    {
      var fnToken := Advance();
      var startPos := fnToken.value.span.start;
      if !CurrentIs(L.Identifier) {
        return Err(ParseError(ExpectedFunctionName, KeywordSpan(startPos)));
      }
      var _ := Advance();
      r := ParseNamedFunction(startPos);
    }

    /** The part of `parse_function_declaration` after the name: the `(` check. */
    method ParseNamedFunction(startPos: nat) returns (r: Result<Stmt, ParseError>)
      requires Valid()
      modifies this
      ensures Valid() && Yields(NamedFunctionAt(tokens, startPos, old(pos)), r, pos)
    {
      if Current().None? {
        return Err(ParseError(ExpectedLeftParen, KeywordSpan(startPos)));
      } else if Current().value.token != L.LeftParen {
        return Err(ParseError(ExpectedLeftParen, SpanFrom(Current().value.span)));
      }
      var _ := Advance();
      r := ParseAfterParameters(startPos);
    }

    /** The rest of a declaration whose `fn` starts at byte `startPos`, from the
        first token of its parameter list on. */
    method ParseAfterParameters(startPos: nat) returns (r: Result<Stmt, ParseError>)
      requires Valid()
      modifies this
      ensures Valid() && Yields(AfterParametersAt(tokens, startPos, SkipToRightParen(tokens, old(pos))), r, pos)
    {
      var fallback := KeywordSpan(startPos);
      SkipParameterList();
      if Current().None? {
        return Err(ParseError(ExpectedRightParen, fallback));
      }
      var _ := Advance();
      var returnType := ParseReturnType(fallback);
      if returnType.Err? {
        return Err(returnType.error);
      }
      r := ParseFunctionBody(startPos, returnType.value);
    }

    /** The optional return type of a declaration. */
    method ParseReturnType(fallback: Span) returns (r: Result<Type, ParseError>)
      requires Valid()
      modifies this
      ensures Valid() && Yields(ReturnTypeAt(tokens, old(pos), fallback), r, pos)
    {
      r := Ok(Type.Void);
      if CurrentIs(L.Arrow) {
        var _ := Advance();
        if Current().None? {
          r := Err(ParseError(ExpectedReturnType, fallback));
        } else if Current().value.token == L.Identifier {
          var _ := Advance();
          r := Ok(Type.Int);
        } else {
          r := Err(ParseError(ExpectedReturnType, SpanFrom(Current().value.span)));
        }
      }
    }

    /** The body of a declaration whose `fn` starts at byte `startPos`. */
    method ParseFunctionBody(startPos: nat, returnType: Type) returns (r: Result<Stmt, ParseError>)
      requires Valid()
      modifies this
      ensures Valid() && Yields(BodyAt(tokens, startPos, returnType, old(pos)), r, pos)
    {
      var fallback := KeywordSpan(startPos);
      if Current().None? {
        return Err(ParseError(ExpectedLeftBrace, fallback));
      } else if Current().value.token != L.LeftBrace {
        return Err(ParseError(ExpectedLeftBrace, SpanFrom(Current().value.span)));
      }
      var _ := Advance();
      var body := Stmt.Block([], fallback);
      SkipFunctionBody();
      if Current().None? {
        return Err(ParseError(ExpectedRightBrace, fallback));
      }
      var _ := Advance();
      var endPos := if Current().Some? then Current().value.span.start else startPos + 10;
      r := Ok(Stmt.Function(MainName, [], returnType, body, Span(startPos, endPos)));
    }

    /** The skip over a parameter list: up to the first `)` or the end of input. */
    method SkipParameterList()
      requires Valid()
      modifies this
      ensures Valid() && pos == SkipToRightParen(tokens, old(pos))
    {
      ghost var p0 := pos;
      while Current().Some? && Current().value.token != L.RightParen
        invariant Valid() && p0 <= pos
        invariant SkipToRightParen(tokens, p0) == SkipToRightParen(tokens, pos)
        decreases |tokens| - pos
      {
        var _ := Advance();
      }
    }

    /** The skip over a function body with its `{` consumed: up to the `}` that
        closes it, counting nested braces, or the end of input. */
    method SkipFunctionBody()
      requires Valid()
      modifies this
      ensures Valid() && pos == SkipBody(tokens, old(pos), 1)
    {
      ghost var p0 := pos;
      var braceCount := 1;
      while Current().Some?
        invariant Valid() && p0 <= pos && braceCount >= 1
        invariant SkipBody(tokens, p0, 1) == SkipBody(tokens, pos, braceCount)
        decreases |tokens| - pos
      {
        if Current().value.token == L.LeftBrace {
          braceCount := braceCount + 1;
        } else if Current().value.token == L.RightBrace {
          braceCount := braceCount - 1;
          if braceCount == 0 {
            break;
          }
        }
        var _ := Advance();
      }
    }

    /** `parse_expression`. */
    method ParseExpression() returns (r: Result<Expr, ParseError>)
      requires Valid()
      modifies this
      ensures Valid() && Yields(ExpressionAt(tokens, old(pos)), r, pos)
    {
      r := ParsePrimaryExpression();
    }

    /** `parse_primary_expression`. */
    method ParsePrimaryExpression() returns (r: Result<Expr, ParseError>)
      requires Valid()
      modifies this
      ensures Valid() && Yields(PrimaryAt(tokens, old(pos)), r, pos)
    {
      match Current()
      case None =>
        r := Err(ParseError(UnexpectedEndOfFile, EofSpan));
      case Some(token) =>
        var span := SpanFrom(token.span);
        var primary := PrimaryFor(token.token, span);
        if primary.Some? {
          var _ := Advance();
          r := Ok(primary.value);
        } else {
          r := Err(ParseError(UnexpectedToken(token.token), span));
        }
    }

    /** `parse_type`. */
    method ParseType() returns (r: Result<Type, ParseError>)
      requires Valid()
      modifies this
      ensures Valid() && Yields(TypeAt(tokens, old(pos)), r, pos)
      decreases |tokens| - pos, 3
    {
      if Current().None? {
        return Err(ParseError(EndOfFileInType, EofSpan));
      }
      var token := Current().value;
      if token.token == L.Identifier {
        var typeName := PlaceholderTypeName;
        var _ := Advance();
        r := Ok(NamedType(typeName));
      } else if token.token == L.LeftBracket {
        var _ := Advance();
        var elem := ParseType();
        if elem.Err? {
          return Err(elem.error);
        }
        var close := Expect(L.RightBracket);
        if close.Err? {
          return Err(close.error);
        }
        r := Ok(Type.Array(elem.value));
      } else if token.token == L.Fn {
        r := ParseFunctionType();
      } else {
        r := Err(ParseError(ExpectedType(token.token), SpanFrom(token.span)));
      }
    }

    /** The `fn` case of `parse_type`. */
    method ParseFunctionType() returns (r: Result<Type, ParseError>)
      requires Valid() && Current().Some?
      modifies this
      ensures Valid() && Yields(FunctionTypeAt(tokens, old(pos)), r, pos)
      decreases |tokens| - pos, 2
    {
      var _ := Advance();
      var open := Expect(L.LeftParen);
      if open.Err? {
        return Err(open.error);
      }
      var paramTypes := ParseParameterTypes();
      if paramTypes.Err? {
        return Err(paramTypes.error);
      }
      var close := Expect(L.RightParen);
      if close.Err? {
        return Err(close.error);
      }
      var arrow := Expect(L.Arrow);
      if arrow.Err? {
        return Err(arrow.error);
      }
      var ret := ParseType();
      if ret.Err? {
        return Err(ret.error);
      }
      r := Ok(Type.Function(paramTypes.value, ret.value));
    }

    /** The parameter types of a function type: none if `)` follows at once,
        otherwise types for as long as a `,` follows each. */
    method ParseParameterTypes() returns (r: Result<seq<Type>, ParseError>)
      requires Valid()
      modifies this
      ensures Valid() && Yields(ParamTypesAt(tokens, old(pos)), r, pos)
      decreases |tokens| - pos, 5
    {
      ghost var q0 := pos;
      var paramTypes: seq<Type> := [];
      if !CurrentIs(L.RightParen) {
        PrependNoTypes(TypeListAt(tokens, q0));
        while true
          invariant Valid() && q0 <= pos
          invariant TypeListAt(tokens, q0) == PrependTypes(paramTypes, TypeListAt(tokens, pos))
          decreases |tokens| - pos
        {
          ghost var q := pos;
          var t := ParseType();
          if t.Err? {
            return Err(t.error);
          }
          if CurrentIs(L.Comma) {
            var _ := Advance();
            assert TypeListAt(tokens, q) == PrependTypes([t.value], TypeListAt(tokens, pos));
            PrependOneType(paramTypes, t.value, TypeListAt(tokens, pos));
            paramTypes := paramTypes + [t.value];
          } else {
            paramTypes := paramTypes + [t.value];
            assert TypeListAt(tokens, q) == Ok(Step([t.value], pos));
            break;
          }
        }
      }
      r := Ok(paramTypes);
    }
  }

  /** `parse`: a fresh parser over `tokens`, run over the whole program. */
  method Parse(tokens: Tokens) returns (r: Result<Program, ParseError>)
    ensures r == ParseTokens(tokens)
  {
    var parser := new Parser(tokens);
    r := parser.ParseProgram();
  }
}
