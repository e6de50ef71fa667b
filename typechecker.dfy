/** The type checker.

    Expression, operator and compatibility checks are pure functions of the
    variable table. Statement and program checking are first written as
    functions that return the checked result together with the variable table
    afterwards; the class `TypeChecker` then keeps the source's mutable tables and
    its methods are proved to compute exactly what those functions describe. */
module Typechecker {
  import opened Wrappers
  import opened Ast

  /** What a type error reports (its message text is not modelled). */
  datatype TypeErrorKind =
    | CannotInferType
    | UndefinedVariable(name: string)
    | InvalidOperands(op: BinaryOp, left: Type, right: Type)
    | TypeMismatch(expected: Type, found: Type)

  datatype TypeError = TypeError(kind: TypeErrorKind, span: Option<Span>)

  type Variables = map<string, Type>
  type Signature = (seq<Type>, Type)

  // ---------------------------------------------------------------- expressions

  predicate Numeric(t: Type) {
    t == Type.Int || t == Type.Float
  }

  predicate Arithmetic(op: BinaryOp) {
    op == Add || op == Sub || op == Mul || op == Div || op == Mod
  }

  predicate Comparison(op: BinaryOp) {
    op == Lt || op == Lte || op == Gt || op == Gte
  }

  /** `check_binary_op`: the type of `left op right`, or an error at `span`. */
  function CheckBinaryOp(op: BinaryOp, left: Type, right: Type, span: Span): (r: Result<Type, TypeError>)
    ensures r.Err? ==> r.error == TypeError(InvalidOperands(op, left, right), Some(span))
    ensures r.Ok? ==> r.value in {Type.Int, Type.Float, Type.String, Type.Bool}
  {
    var err := Err(TypeError(InvalidOperands(op, left, right), Some(span)));
    if Arithmetic(op) then
      if left == Type.Int && right == Type.Int then Ok(Type.Int)
      else if left == Type.Float && right == Type.Float then Ok(Type.Float)
      else if (left == Type.Int && right == Type.Float) || (left == Type.Float && right == Type.Int) then Ok(Type.Float)
      else if op == Add && (left == Type.String || right == Type.String) then Ok(Type.String)
      else err
    else if op == Eq || op == Neq then Ok(Type.Bool)
    else if Comparison(op) then
      if (left == Type.Int && right == Type.Int) || (left == Type.Float && right == Type.Float)
         || (left == Type.Int && right == Type.Float) || (left == Type.Float && right == Type.Int)
      then Ok(Type.Bool)
      else err
    else
      if left == Type.Bool && right == Type.Bool then Ok(Type.Bool) else err
  }

  /** `check_type_compatibility`: types are compatible only when they are equal. */
  function CheckTypeCompatibility(actual: Type, expected: Type, span: Span): (r: Result<(), TypeError>)
    ensures r.Ok? <==> actual == expected
    ensures r.Err? ==> r.error == TypeError(TypeMismatch(expected, actual), Some(span))
  {
    if actual == expected then Ok(()) else Err(TypeError(TypeMismatch(expected, actual), Some(span)))
  }

  /** The type of a literal. */
  function LiteralType(lit: Literal): Type {
    match lit
    case Int(_) => Type.Int
    case Float(_) => Type.Float
    case Bool(_) => Type.Bool
    case String(_) => Type.String
    case Null => Type.Void
  }

  /** `check_expression`: the checked expression (always the expression itself)
      and its type. */
  function CheckExpression(vars: Variables, e: Expr): (r: Result<(Expr, Type), TypeError>)
    ensures r.Ok? ==> r.value.0 == e
    decreases e
  {
    match e
    case Literal(lit, span) => Ok((e, LiteralType(lit)))
    case Identifier(name, span) =>
      if name in vars then Ok((e, vars[name]))
      else Err(TypeError(UndefinedVariable(name), Some(span)))
    case Binary(left, op, right, span) =>
      (match CheckExpression(vars, left)
       case Err(err) => Err(err)
       case Ok(l) =>
         match CheckExpression(vars, right)
         case Err(err) => Err(err)
         case Ok(r) =>
           match CheckBinaryOp(op, l.1, r.1, span)
           case Err(err) => Err(err)
           case Ok(t) => Ok((Expr.Binary(l.0, op, r.0, span), t)))
    case _ => Ok((e, Type.Inferred))
  }

  // ---------------------------------------------------------------- statements

  /** The type a `let` binds: the annotation if there is one, else the type of
      the initializer. */
  function LetType(vars: Variables, annotation: Option<Type>, init: Option<Expr>, span: Span): (r: Result<Type, TypeError>)
    ensures annotation.Some? ==> r == Ok(annotation.value)
  {
    match annotation
    case Some(t) => Ok(t)
    case None =>
      match init
      case None => Err(TypeError(CannotInferType, Some(span)))
      case Some(e) =>
        match CheckExpression(vars, e)
        case Err(err) => Err(err)
        case Ok(c) => Ok(c.1)
  }

  /** The checked initializer of a `let`, which must have exactly the annotated
      type when there is an annotation. */
  function CheckInitializer(vars: Variables, annotation: Option<Type>, init: Option<Expr>, span: Span)
    : (r: Result<Option<Expr>, TypeError>)
    ensures r.Ok? ==> r.value == init
  {
    match init
    case None => Ok(None)
    case Some(e) =>
      match CheckExpression(vars, e)
      case Err(err) => Err(err)
      case Ok(c) =>
        if annotation.Some? then
          match CheckTypeCompatibility(c.1, annotation.value, span)
          case Err(err) => Err(err)
          case Ok(_) => Ok(Some(c.0))
        else Ok(Some(c.0))
  }

  /** `check_statement`: the checked statement and the variable table after it.
      Only `let` is checked; it binds its name once its initializer is checked. */
  function CheckedStatement(vars: Variables, s: Stmt): (r: Result<(Stmt, Variables), TypeError>)
    ensures r.Ok? ==> r.value.0 == s
    ensures !s.Let? ==> r == Ok((s, vars))
    ensures r.Ok? && s.Let? ==> r.value.1.Keys == vars.Keys + {s.name}
  {
    match s
    case Let(name, annotation, init, span) =>
      (match LetType(vars, annotation, init, span)
       case Err(err) => Err(err)
       case Ok(t) =>
         match CheckInitializer(vars, annotation, init, span)
         case Err(err) => Err(err)
         case Ok(checked) => Ok((Stmt.Let(name, annotation, checked, span), vars[name := t])))
    case _ => Ok((s, vars))
  }

  /** The outcome of checking statements in order, and the variable table
      afterwards (up to the failing statement when one fails). */
  datatype Checked = Checked(result: Result<seq<Stmt>, TypeError>, vars: Variables)

  function Prepend(done: seq<Stmt>, c: Checked): Checked {
    match c.result
    case Err(e) => c
    case Ok(ss) => Checked(Ok(done + ss), c.vars)
  }

  lemma PrependNothing(c: Checked)
    ensures Prepend([], c) == c
  {
    if c.result.Ok? {
      assert [] + c.result.value == c.result.value;
    }
  }

  lemma PrependOne(done: seq<Stmt>, s: Stmt, c: Checked)
    ensures Prepend(done, Prepend([s], c)) == Prepend(done + [s], c)
  {
    if c.result.Ok? {
      assert done + ([s] + c.result.value) == (done + [s]) + c.result.value;
    }
  }

  /** The second pass of `check_program`: every statement in order, stopping at
      the first error. */
  function CheckedStatements(vars: Variables, stmts: seq<Stmt>): (c: Checked)
    ensures c.result.Ok? ==> c.result.value == stmts
    decreases |stmts|
  {
    if stmts == [] then Checked(Ok([]), vars)
    else
      match CheckedStatement(vars, stmts[0])
      case Err(e) => Checked(Err(e), vars)
      case Ok(sv) =>
        var rest := CheckedStatements(sv.1, stmts[1..]);
        assert rest.result.Ok? ==> [stmts[0]] + rest.result.value == stmts;
        Prepend([sv.0], rest)
  }

  // ---------------------------------------------------------------- declarations

  function ParamTypes(params: seq<(string, Type)>): (ts: seq<Type>)
    ensures |ts| == |params| && forall i :: 0 <= i < |params| ==> ts[i] == params[i].1
  {
    seq(|params|, i requires 0 <= i < |params| => params[i].1)
  }

  /** The first pass of `check_program` for functions: each declaration, in order,
      enters its parameter and return types under its name. */
  function RegisterFunctions(fs: map<string, Signature>, stmts: seq<Stmt>): map<string, Signature>
    decreases |stmts|
  {
    if stmts == [] then fs
    else
      var s := stmts[0];
      RegisterFunctions(if s.Function? then fs[s.name := (ParamTypes(s.params), s.returnType)] else fs, stmts[1..])
  }

  /** The field table of a struct: each field, in order, enters its type under its name. */
  function FieldTable(m: map<string, Type>, fields: seq<(string, Type)>): map<string, Type>
    decreases |fields|
  {
    if fields == [] then m else FieldTable(m[fields[0].0 := fields[0].1], fields[1..])
  }

  /** The first pass of `check_program` for structs. */
  function RegisterStructs(ss: map<string, map<string, Type>>, stmts: seq<Stmt>): map<string, map<string, Type>>
    decreases |stmts|
  {
    if stmts == [] then ss
    else
      var s := stmts[0];
      RegisterStructs(if s.Struct? then ss[s.name := FieldTable(map[], s.fields)] else ss, stmts[1..])
  }

  /** `typecheck`: the whole program, starting from empty tables. */
  function ProgramChecked(program: Program): (r: Result<Program, TypeError>)
    ensures r.Ok? ==> r.value == program
  {
    match CheckedStatements(map[], program.statements).result
    case Err(e) => Err(e)
    case Ok(ss) => Ok(NewProgram(ss))
  }

  // ---------------------------------------------------------------- the checker

  class TypeChecker {
    var variables: Variables
    var functions: map<string, Signature>
    var structs: map<string, map<string, Type>>
    var currentReturnType: Option<Type>

    /** `TypeChecker::new`: all tables empty. */
    constructor ()
      ensures variables == map[] && functions == map[] && structs == map[] && currentReturnType == None
    {
      variables := map[];
      functions := map[];
      structs := map[];
      currentReturnType := None;
    }

    /** `check_program`: registers every declaration, then checks every statement. */
    method CheckProgram(program: Program) returns (r: Result<Program, TypeError>)
      modifies this
      ensures functions == RegisterFunctions(old(functions), program.statements)
      ensures structs == RegisterStructs(old(structs), program.statements)
      ensures currentReturnType == old(currentReturnType)
      ensures var c := CheckedStatements(old(variables), program.statements);
        variables == c.vars && r == (match c.result case Ok(ss) => Ok(NewProgram(ss)) case Err(e) => Err(e))
    {
      RegisterDeclarations(program.statements);
      var stmts := program.statements;
      var checked := [];
      PrependNothing(CheckedStatements(variables, stmts));
      for i := 0 to |stmts|
        invariant CheckedStatements(old(variables), stmts) == Prepend(checked, CheckedStatements(variables, stmts[i..]))
        invariant functions == RegisterFunctions(old(functions), stmts)
        invariant structs == RegisterStructs(old(structs), stmts)
        invariant currentReturnType == old(currentReturnType)
      {
        assert stmts[i..][1..] == stmts[i + 1..];
        var s := CheckStatement(stmts[i]);
        if s.Err? {
          return Err(s.error);
        }
        PrependOne(checked, s.value, CheckedStatements(variables, stmts[i + 1..]));
        checked := checked + [s.value];
      }
      assert stmts[|stmts|..] == [];
      assert checked + [] == checked;
      return Ok(NewProgram(checked));
    }

    /** The first pass of `check_program`. */
    method RegisterDeclarations(stmts: seq<Stmt>)
      modifies this
      ensures functions == RegisterFunctions(old(functions), stmts)
      ensures structs == RegisterStructs(old(structs), stmts)
      ensures variables == old(variables) && currentReturnType == old(currentReturnType)
    {
      for i := 0 to |stmts|
        invariant RegisterFunctions(old(functions), stmts) == RegisterFunctions(functions, stmts[i..])
        invariant RegisterStructs(old(structs), stmts) == RegisterStructs(structs, stmts[i..])
        invariant variables == old(variables) && currentReturnType == old(currentReturnType)
      {
        assert stmts[i..][1..] == stmts[i + 1..];
        match stmts[i]
        case Function(name, params, returnType, _, _) =>
          functions := functions[name := (ParamTypes(params), returnType)];
        case Struct(name, fields, _) =>
          var fieldTypes := FieldTypes(fields);
          structs := structs[name := fieldTypes];
        case _ =>
      }
      assert stmts[|stmts|..] == [];
    }

    /** The field table built for a struct declaration. */
    static method FieldTypes(fields: seq<(string, Type)>) returns (m: map<string, Type>)
      ensures m == FieldTable(map[], fields)
    {
      m := map[];
      for j := 0 to |fields|
        invariant FieldTable(map[], fields) == FieldTable(m, fields[j..])
      {
        assert fields[j..][1..] == fields[j + 1..];
        m := m[fields[j].0 := fields[j].1];
      }
      assert fields[|fields|..] == [];
    }

    /** `check_statement`. */
    method CheckStatement(s: Stmt) returns (r: Result<Stmt, TypeError>)
      modifies this
      ensures functions == old(functions) && structs == old(structs) && currentReturnType == old(currentReturnType)
      ensures var c := CheckedStatement(old(variables), s);
        (r.Ok? <==> c.Ok?) && (r.Ok? ==> r.value == c.value.0 && variables == c.value.1)
        && (r.Err? ==> r.error == c.error && variables == old(variables))
    {
      match s
      case Let(name, annotation, init, span) =>
        var varType: Type;
        if annotation.Some? {
          varType := annotation.value;
        } else if init.Some? {
          var x := CheckExpression(variables, init.value);
          if x.Err? {
            return Err(x.error);
          }
          varType := x.value.1;
        } else {
          return Err(TypeError(CannotInferType, Some(span)));
        }
        var checkedInit: Option<Expr> := None;
        if init.Some? {
          var x := CheckExpression(variables, init.value);
          if x.Err? {
            return Err(x.error);
          }
          if annotation.Some? {
            var compatible := CheckTypeCompatibility(x.value.1, annotation.value, span);
            if compatible.Err? {
              return Err(compatible.error);
            }
          }
          checkedInit := Some(x.value.0);
        }
        variables := variables[name := varType];
        return Ok(Stmt.Let(name, annotation, checkedInit, span));
      case _ =>
        return Ok(s);
    }
  }

  /** `typecheck`. */
  method Typecheck(program: Program) returns (r: Result<Program, TypeError>)
    ensures r == ProgramChecked(program)
    ensures r.Ok? ==> r.value == program
  {
    var checker := new TypeChecker();
    r := checker.CheckProgram(program);
  }
}
