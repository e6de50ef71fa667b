/** The syntax tree shared by the parser, the type checker and the code generator. */
module Ast {
  import opened Wrappers
  import opened Strings
  import Lexer

  /** Rust's `i64`. */
  newtype i64 = x: int | -0x8000_0000_0000_0000 <= x < 0x8000_0000_0000_0000

  /** An `f64`, kept opaque: it is represented by the text Rust's `to_string` prints for it. */
  datatype Float64 = Float64(text: string)

  /** A byte range of the source text attached to a syntax node. */
  datatype Span = Span(start: nat, end: nat)

  /** The conversion from a lexer range into a syntax span. */
  function SpanFrom(range: Lexer.ByteRange): (s: Span)
    ensures s.start == range.start && s.end == range.end
  {
    Span(range.start, range.end)
  }

  /** The conversion is lossless: distinct ranges give distinct spans. */
  lemma SpanFromInjective(a: Lexer.ByteRange, b: Lexer.ByteRange)
    ensures SpanFrom(a) == SpanFrom(b) <==> a == b
  {
  }

  datatype Type =
    | Int
    | Float
    | Bool
    | String
    | Void
    | Array(elem: Type)
    | Function(params: seq<Type>, ret: Type)
    | Struct(name: string)
    | Inferred // not yet determined

  datatype Literal =
    | Int(i: i64)
    | Float(f: Float64)
    | Bool(b: bool)
    | String(s: string)
    | Null

  datatype BinaryOp = Add | Sub | Mul | Div | Mod | Eq | Neq | Lt | Lte | Gt | Gte | And | Or

  datatype UnaryOp = Neg | Not

  datatype Expr =
    | Literal(lit: Literal, span: Span)
    | Identifier(name: string, span: Span)
    | Binary(left: Expr, op: BinaryOp, right: Expr, span: Span)
    | Unary(uop: UnaryOp, operand: Expr, span: Span)
    | Call(callee: Expr, args: seq<Expr>, span: Span)
    | Index(base: Expr, index: Expr, span: Span)
    | Field(base: Expr, field: string, span: Span)
    | Array(elements: seq<Expr>, span: Span)
    | If(cond: Expr, thenBranch: Expr, elseBranch: Option<Expr>, span: Span)
    | Block(stmts: seq<Stmt>, span: Span)
    | Lambda(lambdaParams: seq<(string, Option<Type>)>, lambdaBody: Expr, span: Span)

  datatype Stmt =
    | Expr(expr: Expr)
    | Let(name: string, annotation: Option<Type>, init: Option<Expr>, span: Span)
    | Assign(target: Expr, value: Expr, span: Span)
    | Return(result: Option<Expr>, span: Span)
    | While(cond: Expr, body: Stmt, span: Span)
    | For(binder: string, iterable: Expr, body: Stmt, span: Span)
    | Block(stmts: seq<Stmt>, span: Span)
    | Function(name: string, params: seq<(string, Type)>, returnType: Type, body: Stmt, span: Span)
    | Struct(name: string, fields: seq<(string, Type)>, span: Span)
    | Import(path: string, span: Span)

  /** A program: its top-level statements in source order. */
  datatype Program = Program(statements: seq<Stmt>)

  /** `Program::new`. */
  function NewProgram(statements: seq<Stmt>): (p: Program)
    ensures p.statements == statements
  {
    Program(statements)
  }

  /** Derived equality on types is structural. */
  lemma TypeEqualityIsStructural(a: Type, b: Type, ps: seq<Type>, qs: seq<Type>, r: Type, s: Type)
    ensures Type.Array(a) == Type.Array(b) <==> a == b
    ensures Type.Function(ps, r) == Type.Function(qs, s) <==> ps == qs && r == s
  {
  }

  /** The pretty-printer for types (`Display for Type`). */
  function DisplayType(t: Type): string
    decreases t
  {
    match t
    case Int => "int"
    case Float => "float"
    case Bool => "bool"
    case String => "string"
    case Void => "void"
    case Array(elem) => "[" + DisplayType(elem) + "]"
    case Function(params, ret) => "fn(" + Join(DisplayAll(params), ", ") + ") -> " + DisplayType(ret)
    case Struct(name) => name
    case Inferred => "_"
  }

  /** Each type of `ts` displayed, in order. */
  function DisplayAll(ts: seq<Type>): (r: seq<string>)
    ensures |r| == |ts|
    ensures forall i :: 0 <= i < |ts| ==> r[i] == DisplayType(ts[i])
    decreases ts
  {
    if |ts| == 0 then [] else [DisplayType(ts[0])] + DisplayAll(ts[1..])
  }

  lemma DisplayPrimitive()
    ensures DisplayType(Type.Int) == "int" && DisplayType(Type.Float) == "float"
    ensures DisplayType(Type.Bool) == "bool" && DisplayType(Type.String) == "string"
    ensures DisplayType(Type.Void) == "void"
  {
  }

  lemma DisplayArray(elem: Type)
    ensures DisplayType(Type.Array(elem)) == "[" + DisplayType(elem) + "]"
  {
  }

  lemma DisplayStructAndInferred(name: string)
    ensures DisplayType(Type.Struct(name)) == name
    ensures DisplayType(Type.Inferred) == "_"
  {
  }

  /** A function type with no parameters shows no separator at all. */
  lemma DisplayFunctionNoParams(ret: Type)
    ensures DisplayType(Type.Function([], ret)) == "fn() -> " + DisplayType(ret)
  {
  }

  /** The parameter list of a function type, shown and joined, read from the front. */
  lemma JoinedParamsCons(p: Type, rest: seq<Type>)
    ensures Join(DisplayAll([p] + rest), ", ") ==
      DisplayType(p) + (if rest == [] then "" else ", " + Join(DisplayAll(rest), ", "))
  {
    assert ([p] + rest)[1..] == rest;
  }

  /** A function type shows its first parameter right after `fn(` and puts
      `", "` only between parameters, never before the first or after the last. */
  lemma DisplayFunctionParams(p: Type, rest: seq<Type>, ret: Type)
    ensures DisplayType(Type.Function([p] + rest, ret)) ==
      "fn(" + DisplayType(p)
      + (if rest == [] then "" else ", " + Join(DisplayAll(rest), ", "))
      + ") -> " + DisplayType(ret)
  {
    var shown := Join(DisplayAll([p] + rest), ", ");
    assert DisplayType(Type.Function([p] + rest, ret)) == "fn(" + shown + ") -> " + DisplayType(ret);
    JoinedParamsCons(p, rest);
  }
}
