/** What `parse` accepts and what it builds, stated over the grammar functions of
    module `Parser` (which the methods of the `Parser` class are proved to compute). */
module ParserProperties {
  import opened Wrappers
  import opened Ast
  import L = Lexer
  import opened Parser

  // ---------------------------------------------------------------- programs

  /** Every statement consumes at least one token, so there are never more
      statements than tokens. */
  lemma {:induction false} ProgramLength(toks: Tokens, p: nat)
    requires p <= |toks|
    ensures ProgramAt(toks, p).Ok? ==> |ProgramAt(toks, p).value| <= |toks| - p
    decreases |toks| - p
  {
    if p < |toks| {
      var s := StatementAt(toks, p);
      if s.Ok? {
        ProgramLength(toks, s.value.next);
      }
    }
  }

  /** The statement starting at `q` is reached from `p`: the statements from `p`
      parse one after another and the last of them ends at `q`. */
  ghost predicate Reaches(toks: Tokens, p: nat, q: nat)
    requires p <= |toks|
    decreases |toks| - p
  {
    p == q || (p < |toks| && StatementAt(toks, p).Ok? && Reaches(toks, StatementAt(toks, p).value.next, q))
  }

  /** The statements of a program come in source order: the first is the one at
      `p`, the rest are the program that follows it. */
  lemma ProgramInOrder(toks: Tokens, p: nat)
    requires p < |toks| && ProgramAt(toks, p).Ok?
    ensures StatementAt(toks, p).Ok?
    ensures ProgramAt(toks, p).value ==
      [StatementAt(toks, p).value.value] + ProgramAt(toks, StatementAt(toks, p).value.next).value
  {
  }

  /** The first statement that fails decides the result: its error is the
      program's error, whatever follows it. */
  lemma {:induction false} FirstErrorAborts(toks: Tokens, p: nat, q: nat)
    requires p <= |toks| && Reaches(toks, p, q) && q < |toks| && StatementAt(toks, q).Err?
    ensures ProgramAt(toks, p) == Err(StatementAt(toks, q).error)
    decreases |toks| - p
  {
    if p != q {
      FirstErrorAborts(toks, StatementAt(toks, p).value.next, q);
    }
  }

  /** The end of input is not a statement. */
  lemma StatementAtEnd(toks: Tokens)
    ensures StatementAt(toks, |toks|) == Err(ParseError(UnexpectedEndOfFile, EofSpan))
  {
  }

  // ---------------------------------------------------------------- statements

  /** The statement keywords whose parsers are not implemented: `return`,
      `while`, `for`, `struct`, `import` and the expression forms `if` and `{`. */
  predicate Unimplemented(k: L.Token) {
    k in {L.Return, L.While, L.For, L.Struct, L.Import, L.If, L.LeftBrace}
  }

  /** A statement that starts with one of those keywords always fails, at span `0..0`. */
  lemma UnimplementedStatement(toks: Tokens, q: nat)
    requires q < |toks| && Unimplemented(toks[q].token)
    ensures StatementAt(toks, q).Err?
    ensures StatementAt(toks, q).error.kind.NotImplemented?
    ensures StatementAt(toks, q).error.span == EofSpan
  {
  }

  /** So does every program in which such a statement is reached. */
  lemma ProgramRejectsUnimplemented(toks: Tokens, p: nat, q: nat)
    requires p <= |toks| && Reaches(toks, p, q) && q < |toks| && Unimplemented(toks[q].token)
    ensures ProgramAt(toks, p).Err? && ProgramAt(toks, p).error.kind.NotImplemented?
  {
    UnimplementedStatement(toks, q);
    FirstErrorAborts(toks, p, q);
  }

  /** The expression a single token stands for, at that token's span. */
  function PrimaryOf(toks: Tokens, p: nat): Option<Expr>
    requires p < |toks|
  {
    PrimaryFor(toks[p].token, SpanFrom(toks[p].span))
  }

  /** Exactly the literal tokens, `true`, `false`, `null` and identifiers start an
      expression; each becomes its placeholder value at its own span. */
  lemma PrimaryTokens(k: L.Token, span: Span)
    ensures PrimaryFor(k, span).Some? <==>
      k in {L.IntLiteral, L.FloatLiteral, L.StringLiteral, L.True, L.False, L.Null, L.Identifier}
    ensures PrimaryFor(k, span).Some? ==> PrimaryFor(k, span).value.span == span
    ensures k == L.IntLiteral ==> PrimaryFor(k, span).value.lit == Literal.Int(42)
    ensures k == L.FloatLiteral ==> PrimaryFor(k, span).value.lit == Literal.Float(Float64("3.14"))
    ensures k == L.StringLiteral ==> PrimaryFor(k, span).value.lit == Literal.String("string")
    ensures k == L.Identifier ==> PrimaryFor(k, span).value == Expr.Identifier("identifier", span)
  {
  }

  /** `e1 = e2`: an assignment whose span is that of `=`. The token after the
      value is not consumed, not even a `;`. */
  lemma AssignmentStatement(toks: Tokens, p: nat)
    requires p + 2 < |toks| && PrimaryOf(toks, p).Some? && toks[p + 1].token == L.Assign
    requires PrimaryOf(toks, p + 2).Some?
    ensures StatementAt(toks, p) ==
      Ok(Step(Stmt.Assign(PrimaryOf(toks, p).value, PrimaryOf(toks, p + 2).value, SpanFrom(toks[p + 1].span)), p + 3))
  {
  }

  /** Hence `e1 = e2;` is rejected: the `;` starts a statement of its own, and a
      `;` does not start an expression. */
  lemma AssignmentThenSemicolon(toks: Tokens, p: nat)
    requires p + 3 < |toks| && PrimaryOf(toks, p).Some? && toks[p + 1].token == L.Assign
    requires PrimaryOf(toks, p + 2).Some? && toks[p + 3].token == L.Semicolon
    ensures ProgramAt(toks, p) == Err(ParseError(UnexpectedToken(L.Semicolon), SpanFrom(toks[p + 3].span)))
  {
    AssignmentStatement(toks, p);
    assert StatementAt(toks, p + 3) == Err(ParseError(UnexpectedToken(L.Semicolon), SpanFrom(toks[p + 3].span)));
  }

  /** An expression not followed by `=` is a statement that consumes one optional `;`. */
  lemma ExpressionStatementSemicolon(toks: Tokens, p: nat)
    requires p < |toks| && PrimaryOf(toks, p).Some? && !At(toks, p + 1, L.Assign)
    ensures StatementAt(toks, p) ==
      Ok(Step(Stmt.Expr(PrimaryOf(toks, p).value), if At(toks, p + 1, L.Semicolon) then p + 2 else p + 1))
  {
  }

  /** Any other token that is not a statement keyword is an unexpected token. */
  lemma NotAStatement(toks: Tokens, p: nat)
    requires p < |toks| && PrimaryOf(toks, p).None? && !Unimplemented(toks[p].token)
    requires toks[p].token != L.Let && toks[p].token != L.Fn
    ensures StatementAt(toks, p) == Err(ParseError(UnexpectedToken(toks[p].token), SpanFrom(toks[p].span)))
  {
  }

  // ---------------------------------------------------------------- let

  /** `let` without an identifier after it fails at the span of `let`. */
  lemma LetWithoutName(toks: Tokens, p: nat)
    requires p < |toks| && toks[p].token == L.Let && !At(toks, p + 1, L.Identifier)
    ensures StatementAt(toks, p) == Err(ParseError(ExpectedIdentifierAfterLet, SpanFrom(toks[p].span)))
  {
  }

  /** Every parsed `let` binds the placeholder name at the span of `let`. */
  lemma LetShape(toks: Tokens, p: nat)
    requires p < |toks| && toks[p].token == L.Let && StatementAt(toks, p).Ok?
    ensures StatementAt(toks, p).value.value.Let?
    ensures StatementAt(toks, p).value.value.name == "identifier"
    ensures StatementAt(toks, p).value.value.span == SpanFrom(toks[p].span)
  {
  }

  /** `let x` with neither annotation nor initializer is accepted, with an optional `;`. */
  lemma LetBare(toks: Tokens, p: nat)
    requires p + 1 < |toks| && toks[p].token == L.Let && toks[p + 1].token == L.Identifier
    requires !At(toks, p + 2, L.Colon) && !At(toks, p + 2, L.Assign)
    ensures StatementAt(toks, p) ==
      Ok(Step(Stmt.Let("identifier", None, None, SpanFrom(toks[p].span)), SkipSemicolon(toks, p + 2)))
  {
  }

  /** `let x: T = e`: the annotation is the type parsed after `:` and the
      initializer the expression after `=`. */
  lemma LetAnnotatedAndInitialized(toks: Tokens, p: nat, t: Type, q: nat)
    requires p + 2 < |toks| && toks[p].token == L.Let && toks[p + 1].token == L.Identifier
    requires toks[p + 2].token == L.Colon && TypeAt(toks, p + 3) == Ok(Step(t, q))
    requires q + 1 < |toks| && toks[q].token == L.Assign && PrimaryOf(toks, q + 1).Some?
    ensures StatementAt(toks, p) ==
      Ok(Step(Stmt.Let("identifier", Some(t), Some(PrimaryOf(toks, q + 1).value), SpanFrom(toks[p].span)),
              SkipSemicolon(toks, q + 2)))
  {
  }

  // ---------------------------------------------------------------- functions

  /** The parameter skip stops at the first `)`. */
  lemma {:induction false} SkipToRightParenFirst(toks: Tokens, p: nat)
    requires p <= |toks|
    ensures forall j | p <= j < SkipToRightParen(toks, p) :: toks[j].token != L.RightParen
    decreases |toks| - p
  {
    if p < |toks| && toks[p].token != L.RightParen {
      SkipToRightParenFirst(toks, p + 1);
    }
  }

  /** Without any `)` the skip runs to the end of input. */
  lemma {:induction false} SkipToRightParenNone(toks: Tokens, p: nat)
    requires p <= |toks|
    requires forall j | p <= j < |toks| :: toks[j].token != L.RightParen
    ensures SkipToRightParen(toks, p) == |toks|
    decreases |toks| - p
  {
    if p < |toks| {
      SkipToRightParenNone(toks, p + 1);
    }
  }

  /** How much a token changes the brace counter. */
  function BraceDelta(k: L.Token): int {
    if k == L.LeftBrace then 1 else if k == L.RightBrace then -1 else 0
  }

  /** The net number of `{` over `}` among the tokens from `p` up to `j`. */
  function Depth(toks: Tokens, p: nat, j: nat): int
    requires p <= j <= |toks|
    decreases j - p
  {
    if p == j then 0 else BraceDelta(toks[p].token) + Depth(toks, p + 1, j)
  }

  /** The body skip, started with `braces` unclosed, stops at the `}` that brings
      the counter back to zero: before it the counter never drops below one. */
  lemma {:induction false} SkipBodyBalance(toks: Tokens, p: nat, braces: int)
    requires p <= |toks| && braces >= 1
    ensures forall j | p <= j <= SkipBody(toks, p, braces) :: braces + Depth(toks, p, j) >= 1
    ensures SkipBody(toks, p, braces) < |toks| ==> braces + Depth(toks, p, SkipBody(toks, p, braces) + 1) == 0
    decreases |toks| - p
  {
    if p < |toks| && !(toks[p].token == L.RightBrace && braces == 1) {
      SkipBodyBalance(toks, p + 1, braces + BraceDelta(toks[p].token));
    }
  }

  /** From `p` on, with `braces` unclosed, the counter never gets back to zero. */
  ghost predicate NeverCloses(toks: Tokens, p: nat, braces: int)
    requires p <= |toks|
  {
    forall j | p < j <= |toks| :: braces + Depth(toks, p, j) >= 1
  }

  /** If the counter never gets back to zero the skip runs to the end of input. */
  lemma {:induction false} SkipBodyRunsOut(toks: Tokens, p: nat, braces: int)
    requires p <= |toks| && braces >= 1 && NeverCloses(toks, p, braces)
    ensures SkipBody(toks, p, braces) == |toks|
    decreases |toks| - p
  {
    if p < |toks| {
      var next := p + 1;
      var d := braces + BraceDelta(toks[p].token);
      assert braces + Depth(toks, p, next) >= 1;
      forall j | next < j <= |toks| ensures d + Depth(toks, next, j) >= 1 {
        assert braces + Depth(toks, p, j) >= 1;
      }
      SkipBodyRunsOut(toks, next, d);
    }
  }

  /** A parsed declaration is always `main` with no parameters, an empty body at the
      first two bytes of `fn`, and a return type that is `void` or `int`; it ends
      with the `}` that closed its body. */
  lemma FunctionShape(toks: Tokens, p: nat)
    requires p < |toks| && toks[p].token == L.Fn && StatementAt(toks, p).Ok?
    ensures var s := StatementAt(toks, p).value; var start := toks[p].span.start;
      && s.value.Function?
      && s.value.name == "main" && s.value.params == []
      && (s.value.returnType == Type.Void || s.value.returnType == Type.Int)
      && s.value.body == Stmt.Block([], Span(start, start + 2))
      && s.value.span.start == start
      && toks[s.next - 1].token == L.RightBrace
  {
  }

  /** The return type is `int` exactly when `->` follows the parameter list. */
  lemma FunctionReturnType(toks: Tokens, p: nat)
    requires p < |toks| && toks[p].token == L.Fn && StatementAt(toks, p).Ok?
    ensures StatementAt(toks, p).value.value.returnType == Type.Int <==>
      At(toks, SkipToRightParen(toks, p + 3) + 1, L.Arrow)
  {
  }

  /** A declaration whose parameter list is never closed fails at the `fn` keyword. */
  lemma FunctionWithoutRightParen(toks: Tokens, p: nat)
    requires p + 2 < |toks| && toks[p].token == L.Fn && toks[p + 1].token == L.Identifier
    requires toks[p + 2].token == L.LeftParen
    requires forall j | p + 3 <= j < |toks| :: toks[j].token != L.RightParen
    ensures StatementAt(toks, p) == Err(ParseError(ExpectedRightParen, KeywordSpan(toks[p].span.start)))
  {
    SkipToRightParenNone(toks, p + 3);
  }

  /** A body whose braces never balance fails at the `fn` keyword. */
  lemma BodyWithoutRightBrace(toks: Tokens, start: nat, ret: Type, q: nat)
    requires q < |toks| && toks[q].token == L.LeftBrace
    requires NeverCloses(toks, q + 1, 1)
    ensures BodyAt(toks, start, ret, q) == Err(ParseError(ExpectedRightBrace, KeywordSpan(start)))
  {
    SkipBodyRunsOut(toks, q + 1, 1);
  }

  // ---------------------------------------------------------------- types

  /** An identifier is always read as the placeholder struct type `type`. */
  lemma TypeIdentifier(toks: Tokens, p: nat)
    requires p < |toks| && toks[p].token == L.Identifier
    ensures TypeAt(toks, p) == Ok(Step(Type.Struct("type"), p + 1))
  {
  }

  /** The types `parse_type` can produce: the placeholder struct, arrays and
      function types built from them. */
  ghost predicate Parsable(t: Type)
    decreases t
  {
    match t
    case Struct(name) => name == "type"
    case Array(elem) => Parsable(elem)
    case Function(params, ret) => AllParsable(params) && Parsable(ret)
    case _ => false
  }

  ghost predicate AllParsable(ts: seq<Type>)
    decreases ts
  {
    forall i | 0 <= i < |ts| :: Parsable(ts[i])
  }

  /** The number of tokens that spell a type: one identifier for a name, `[ T ]`
      for an array and `fn ( T1 , ... , Tn ) -> R` for a function type. */
  function TypeSize(t: Type): (n: nat)
    ensures n >= 1
    decreases t
  {
    match t
    case Array(elem) => TypeSize(elem) + 2
    case Function(params, ret) => ListSize(params) + TypeSize(ret) + 4
    case _ => 1
  }

  /** The number of tokens that spell types separated by `,`. */
  function ListSize(ts: seq<Type>): nat
    decreases ts
  {
    if |ts| == 0 then 0
    else if |ts| == 1 then TypeSize(ts[0])
    else TypeSize(ts[0]) + 1 + ListSize(ts[1..])
  }

  /** The grammar of type spellings: the tokens from `p` on spell `t`, an
      identifier for a name, `[ T ]` for an array and `fn ( T1 , ... , Tn ) -> R`
      for a function type. */
  ghost predicate SpellsType(toks: Tokens, p: nat, t: Type)
    decreases t
  {
    match t
    case Array(elem) =>
      At(toks, p, L.LeftBracket) && SpellsType(toks, p + 1, elem)
      && At(toks, p + 1 + TypeSize(elem), L.RightBracket)
    case Function(params, ret) =>
      var q := p + 2 + ListSize(params);
      At(toks, p, L.Fn) && At(toks, p + 1, L.LeftParen) && SpellsList(toks, p + 2, params)
      && At(toks, q, L.RightParen) && At(toks, q + 1, L.Arrow) && SpellsType(toks, q + 2, ret)
    case _ => At(toks, p, L.Identifier)
  }

  ghost predicate SpellsList(toks: Tokens, p: nat, ts: seq<Type>)
    decreases ts
  {
    if |ts| == 0 then p <= |toks|
    else
      var n := p + TypeSize(ts[0]);
      SpellsType(toks, p, ts[0])
      && (|ts| == 1 || (At(toks, n, L.Comma) && SpellsList(toks, n + 1, ts[1..])))
  }

  /** `[` at `p`, an element type read up to `q`, and `]` at `q`. */
  lemma ArrayTypeStep(toks: Tokens, p: nat, elem: Type, q: nat)
    requires p < q && At(toks, p, L.LeftBracket) && At(toks, q, L.RightBracket)
    requires TypeAt(toks, p + 1) == Ok(Step(elem, q))
    ensures TypeAt(toks, p) == Ok(Step(Type.Array(elem), q + 1))
  {
    assert ArrayTypeAt(toks, p) == Ok(Step(Type.Array(elem), q + 1));
  }

  /** `fn (` at `p`, parameter types read up to `q`, `) ->` at `q`, and a result type
      read from `q + 2` up to `r`. */
  lemma FunctionTypeStep(toks: Tokens, p: nat, params: seq<Type>, q: nat, ret: Type, r: nat)
    requires p + 1 < q && At(toks, p, L.Fn) && At(toks, p + 1, L.LeftParen)
    requires ParamTypesAt(toks, p + 2) == Ok(Step(params, q))
    requires At(toks, q, L.RightParen) && At(toks, q + 1, L.Arrow)
    requires TypeAt(toks, q + 2) == Ok(Step(ret, r))
    ensures TypeAt(toks, p) == Ok(Step(Type.Function(params, ret), r))
  {
    assert FunctionTypeAt(toks, p) == Ok(Step(Type.Function(params, ret), r));
  }

  /** A type read at `p` up to `n`, a `,`, and more types read from `n + 1`. */
  lemma TypeListStep(toks: Tokens, p: nat, t: Type, n: nat, rest: seq<Type>, r: nat)
    requires p <= |toks| && TypeAt(toks, p) == Ok(Step(t, n)) && At(toks, n, L.Comma)
    requires TypeListAt(toks, n + 1) == Ok(Step(rest, r))
    ensures TypeListAt(toks, p) == Ok(Step([t] + rest, r))
  {
  }

  /** Reading the spelling of a parsable type gives back that type, and consumes
      exactly its tokens. */
  lemma {:induction false} TypeRoundTrip(toks: Tokens, p: nat, t: Type)
    requires p <= |toks| && Parsable(t) && SpellsType(toks, p, t)
    ensures TypeAt(toks, p) == Ok(Step(t, p + TypeSize(t)))
    decreases t, 2
  {
    match t
    case Struct(name) =>
    case Array(elem) =>
      TypeRoundTrip(toks, p + 1, elem);
      ArrayTypeStep(toks, p, elem, p + 1 + TypeSize(elem));
    case Function(params, ret) =>
      var q := p + 2 + ListSize(params);
      ParamTypesRoundTrip(toks, p + 2, params);
      TypeRoundTrip(toks, q + 2, ret);
      FunctionTypeStep(toks, p, params, q, ret, q + 2 + TypeSize(ret));
  }

  /** The parameter types of a function type, read back. */
  lemma {:induction false} ParamTypesRoundTrip(toks: Tokens, p: nat, ts: seq<Type>)
    requires p <= |toks| && AllParsable(ts) && SpellsList(toks, p, ts)
    requires At(toks, p + ListSize(ts), L.RightParen)
    ensures ParamTypesAt(toks, p) == Ok(Step(ts, p + ListSize(ts)))
    decreases ts, 1
  {
    if ts != [] {
      assert Parsable(ts[0]);
      TypeRoundTrip(toks, p, ts[0]);
      ListRoundTrip(toks, p, ts);
    }
  }

  /** A non-empty `,`-separated list of types, read back up to the first token
      after it, which must not be another `,`. */
  lemma {:induction false} ListRoundTrip(toks: Tokens, p: nat, ts: seq<Type>)
    requires |ts| >= 1 && p <= |toks| && AllParsable(ts) && SpellsList(toks, p, ts)
    requires !At(toks, p + ListSize(ts), L.Comma)
    ensures TypeListAt(toks, p) == Ok(Step(ts, p + ListSize(ts)))
    decreases ts, 0
  {
    var n := p + TypeSize(ts[0]);
    assert Parsable(ts[0]);
    TypeRoundTrip(toks, p, ts[0]);
    if |ts| == 1 {
      assert ts == [ts[0]];
    } else {
      var rest := ts[1..];
      assert AllParsable(rest) by {
        forall i | 0 <= i < |rest| ensures Parsable(rest[i]) {
          assert rest[i] == ts[i + 1];
        }
      }
      ListRoundTrip(toks, n + 1, rest);
      TypeListStep(toks, p, ts[0], n, rest, n + 1 + ListSize(rest));
      assert [ts[0]] + rest == ts;
    }
  }

  /** What a successful read of an array type consists of. */
  lemma ArrayTypeRead(toks: Tokens, p: nat)
    requires At(toks, p, L.LeftBracket) && TypeAt(toks, p).Ok?
    ensures TypeAt(toks, p + 1).Ok?
    ensures var e := TypeAt(toks, p + 1).value;
      At(toks, e.next, L.RightBracket) && TypeAt(toks, p).value == Step(Type.Array(e.value), e.next + 1)
  {
    assert TypeAt(toks, p) == ArrayTypeAt(toks, p);
  }

  /** What a successful read of a function type consists of. */
  lemma FunctionTypeRead(toks: Tokens, p: nat)
    requires At(toks, p, L.Fn) && FunctionTypeAt(toks, p).Ok?
    ensures At(toks, p + 1, L.LeftParen) && ParamTypesAt(toks, p + 2).Ok?
    ensures var ps := ParamTypesAt(toks, p + 2).value;
      At(toks, ps.next, L.RightParen) && At(toks, ps.next + 1, L.Arrow) && TypeAt(toks, ps.next + 2).Ok?
      && var r := TypeAt(toks, ps.next + 2).value;
         FunctionTypeAt(toks, p).value == Step(Type.Function(ps.value, r.value), r.next)
  {
  }

  /** What a successful read of a type list consists of. */
  lemma TypeListRead(toks: Tokens, p: nat)
    requires p <= |toks| && TypeListAt(toks, p).Ok?
    ensures TypeAt(toks, p).Ok?
    ensures var t := TypeAt(toks, p).value;
      if At(toks, t.next, L.Comma) then
        TypeListAt(toks, t.next + 1).Ok? &&
        var rest := TypeListAt(toks, t.next + 1).value;
        TypeListAt(toks, p).value == Step([t.value] + rest.value, rest.next)
      else TypeListAt(toks, p).value == Step([t.value], t.next)
  {
  }

  /** Conversely, every type `parse_type` reads is parsable and was spelled by
      exactly the tokens it consumed. */
  lemma {:induction false} TypeAtSpelled(toks: Tokens, p: nat)
    requires p <= |toks| && TypeAt(toks, p).Ok?
    ensures var s := TypeAt(toks, p).value;
      Parsable(s.value) && SpellsType(toks, p, s.value) && s.next == p + TypeSize(s.value)
    decreases |toks| - p, 3
  {
    var k := toks[p].token;
    if k == L.Identifier {
      TypeIdentifier(toks, p);
    } else if k == L.LeftBracket {
      ArrayTypeRead(toks, p);
      TypeAtSpelled(toks, p + 1);
    } else {
      assert k == L.Fn && TypeAt(toks, p) == FunctionTypeAt(toks, p);
      FunctionTypeSpelled(toks, p);
    }
  }

  lemma {:induction false} FunctionTypeSpelled(toks: Tokens, p: nat)
    requires At(toks, p, L.Fn) && FunctionTypeAt(toks, p).Ok?
    ensures var s := FunctionTypeAt(toks, p).value;
      Parsable(s.value) && SpellsType(toks, p, s.value) && s.next == p + TypeSize(s.value)
    decreases |toks| - p, 2
  {
    FunctionTypeRead(toks, p);
    var params := ParamTypesAt(toks, p + 2).value;
    ParamTypesSpelled(toks, p + 2);
    TypeAtSpelled(toks, params.next + 2);
  }

  lemma {:induction false} ParamTypesSpelled(toks: Tokens, p: nat)
    requires p <= |toks| && ParamTypesAt(toks, p).Ok?
    ensures var s := ParamTypesAt(toks, p).value;
      AllParsable(s.value) && SpellsList(toks, p, s.value) && s.next == p + ListSize(s.value)
    decreases |toks| - p, 5
  {
    if !At(toks, p, L.RightParen) {
      ListSpelled(toks, p);
    }
  }

  lemma {:induction false} ListSpelled(toks: Tokens, p: nat)
    requires p <= |toks| && TypeListAt(toks, p).Ok?
    ensures var s := TypeListAt(toks, p).value;
      AllParsable(s.value) && SpellsList(toks, p, s.value) && s.next == p + ListSize(s.value)
      && !At(toks, s.next, L.Comma)
    decreases |toks| - p, 4
  {
    TypeListRead(toks, p);
    var s := TypeListAt(toks, p).value;
    var t := TypeAt(toks, p).value;
    TypeAtSpelled(toks, p);
    if At(toks, t.next, L.Comma) {
      var rest := TypeListAt(toks, t.next + 1).value;
      ListSpelled(toks, t.next + 1);
      assert s.value[0] == t.value && s.value[1..] == rest.value;
      assert AllParsable(s.value) by {
        forall i | 0 <= i < |s.value| ensures Parsable(s.value[i]) {
          if i > 0 {
            assert s.value[i] == rest.value[i - 1];
          }
        }
      }
    } else {
      assert s.value == [t.value];
    }
  }

  /** Together: `parse_type` reads `t` from `p` to `q` exactly when `t` is parsable
      and the tokens from `p` to `q` spell it. */
  lemma TypeAtSpelling(toks: Tokens, p: nat, t: Type, q: nat)
    requires p <= |toks|
    ensures TypeAt(toks, p) == Ok(Step(t, q)) <==>
      Parsable(t) && SpellsType(toks, p, t) && q == p + TypeSize(t)
  {
    if TypeAt(toks, p) == Ok(Step(t, q)) {
      TypeAtSpelled(toks, p);
    }
    if Parsable(t) && SpellsType(toks, p, t) && q == p + TypeSize(t) {
      TypeRoundTrip(toks, p, t);
    }
  }

  // ---------------------------------------------------------------- examples

  function Tok(k: L.Token, start: nat, end: nat): L.LexerSpan {
    L.LexerSpan(k, L.ByteRange(start, end))
  }

  /** The tokens of `let x: int = 5;`; the parser's placeholders stand in for the text. */
  lemma LetExample()
    ensures ParseTokens([Tok(L.Let, 0, 3), Tok(L.Identifier, 4, 5), Tok(L.Colon, 5, 6), Tok(L.Identifier, 7, 10),
                         Tok(L.Assign, 11, 12), Tok(L.IntLiteral, 13, 14), Tok(L.Semicolon, 14, 15)])
      == Ok(Program([Stmt.Let("identifier", Some(Type.Struct("type")),
                              Some(Expr.Literal(Literal.Int(42), Span(13, 14))), Span(0, 3))]))
  {
    var toks := [Tok(L.Let, 0, 3), Tok(L.Identifier, 4, 5), Tok(L.Colon, 5, 6), Tok(L.Identifier, 7, 10),
                 Tok(L.Assign, 11, 12), Tok(L.IntLiteral, 13, 14), Tok(L.Semicolon, 14, 15)];
    TypeIdentifier(toks, 3);
    LetAnnotatedAndInitialized(toks, 0, Type.Struct("type"), 4);
    assert StatementAt(toks, 0) == Ok(Step(Stmt.Let("identifier", Some(Type.Struct("type")),
                              Some(Expr.Literal(Literal.Int(42), Span(13, 14))), Span(0, 3)), 7));
    var let := Stmt.Let("identifier", Some(Type.Struct("type")), Some(Expr.Literal(Literal.Int(42), Span(13, 14))), Span(0, 3));
    assert ProgramAt(toks, 7) == Ok([]);
    assert [let] + [] == [let];
  }

  /** `fn f(a) -> int { { } } 1` */
  lemma FunctionExample()
    ensures ParseTokens([Tok(L.Fn, 0, 2), Tok(L.Identifier, 3, 4), Tok(L.LeftParen, 4, 5), Tok(L.Identifier, 5, 6),
                         Tok(L.RightParen, 6, 7), Tok(L.Arrow, 8, 10), Tok(L.Identifier, 11, 14),
                         Tok(L.LeftBrace, 15, 16), Tok(L.LeftBrace, 17, 18), Tok(L.RightBrace, 18, 19),
                         Tok(L.RightBrace, 20, 21), Tok(L.IntLiteral, 22, 23)])
      == Ok(Program([Stmt.Function("main", [], Type.Int, Stmt.Block([], Span(0, 2)), Span(0, 22)),
                     Stmt.Expr(Expr.Literal(Literal.Int(42), Span(22, 23)))]))
  {
    var toks := [Tok(L.Fn, 0, 2), Tok(L.Identifier, 3, 4), Tok(L.LeftParen, 4, 5), Tok(L.Identifier, 5, 6),
                 Tok(L.RightParen, 6, 7), Tok(L.Arrow, 8, 10), Tok(L.Identifier, 11, 14),
                 Tok(L.LeftBrace, 15, 16), Tok(L.LeftBrace, 17, 18), Tok(L.RightBrace, 18, 19),
                 Tok(L.RightBrace, 20, 21), Tok(L.IntLiteral, 22, 23)];
    assert SkipToRightParen(toks, 3) == 4;
    assert ReturnTypeAt(toks, 5, KeywordSpan(0)) == Ok(Step(Type.Int, 7));
    assert SkipBody(toks, 10, 1) == 10;
    assert SkipBody(toks, 9, 2) == 10;
    assert SkipBody(toks, 8, 1) == 10;
    assert StatementAt(toks, 0) ==
      Ok(Step(Stmt.Function("main", [], Type.Int, Stmt.Block([], Span(0, 2)), Span(0, 22)), 11));
    ExpressionStatementSemicolon(toks, 11);
    var e := Stmt.Expr(Expr.Literal(Literal.Int(42), Span(22, 23)));
    assert ProgramAt(toks, 12) == Ok([]);
    assert [e] + [] == [e];
    assert ProgramAt(toks, 11) == Ok([e]);
    var f := Stmt.Function("main", [], Type.Int, Stmt.Block([], Span(0, 2)), Span(0, 22));
    assert ProgramAt(toks, 0) == Ok([f] + [e]);
    assert [f] + [e] == [f, e];
  }

  /** `x = 1;` is rejected at the `;`. */
  lemma AssignmentExample()
    ensures ParseTokens([Tok(L.Identifier, 0, 1), Tok(L.Assign, 2, 3), Tok(L.IntLiteral, 4, 5), Tok(L.Semicolon, 5, 6)])
      == Err(ParseError(UnexpectedToken(L.Semicolon), Span(5, 6)))
  {
    var toks := [Tok(L.Identifier, 0, 1), Tok(L.Assign, 2, 3), Tok(L.IntLiteral, 4, 5), Tok(L.Semicolon, 5, 6)];
    AssignmentThenSemicolon(toks, 0);
  }
}
