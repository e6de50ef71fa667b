/** Properties of the type checker: the operator typing table, expression and
    `let` checking, the order of checking and the declaration tables. */
module TypecheckerProperties {
  import opened Wrappers
  import opened Ast
  import opened Typechecker

  // ---------------------------------------------------------------- operators

  /** Arithmetic on numbers: `Int` with `Int` gives `Int`, any other pair of
      numbers gives `Float`; apart from `+`, nothing else is accepted. */
  lemma ArithmeticTyping(op: BinaryOp, l: Type, r: Type, span: Span)
    requires Arithmetic(op)
    ensures CheckBinaryOp(op, l, r, span) == Ok(Type.Int) <==> l == Type.Int && r == Type.Int
    ensures CheckBinaryOp(op, l, r, span) == Ok(Type.Float) <==>
      Numeric(l) && Numeric(r) && (l == Type.Float || r == Type.Float)
    ensures op != Add ==> (CheckBinaryOp(op, l, r, span).Ok? <==> Numeric(l) && Numeric(r))
  {
  }

  /** `+` also accepts any pair with a `String` on either side, and gives `String`
      unless both sides are numbers. */
  lemma AddTyping(l: Type, r: Type, span: Span)
    ensures CheckBinaryOp(Add, l, r, span).Ok? <==>
      (Numeric(l) && Numeric(r)) || l == Type.String || r == Type.String
    ensures (l == Type.String || r == Type.String) ==> CheckBinaryOp(Add, l, r, span) == Ok(Type.String)
  {
  }

  /** So `"a" + true` is accepted while `"a" - 1` is not. */
  lemma StringOperands(span: Span)
    ensures CheckBinaryOp(Add, Type.String, Type.Bool, span) == Ok(Type.String)
    ensures CheckBinaryOp(Sub, Type.String, Type.Int, span) ==
      Err(TypeError(InvalidOperands(Sub, Type.String, Type.Int), Some(span)))
  {
  }

  /** `==` and `!=` compare operands of any types. */
  lemma EqualityTyping(op: BinaryOp, l: Type, r: Type, span: Span)
    requires op == Eq || op == Neq
    ensures CheckBinaryOp(op, l, r, span) == Ok(Type.Bool)
  {
  }

  /** The orderings accept exactly pairs of numbers. */
  lemma ComparisonTyping(op: BinaryOp, l: Type, r: Type, span: Span)
    requires Comparison(op)
    ensures CheckBinaryOp(op, l, r, span) == Ok(Type.Bool) <==> Numeric(l) && Numeric(r)
    ensures CheckBinaryOp(op, l, r, span).Err? <==> !(Numeric(l) && Numeric(r))
  {
  }

  /** `&&` and `||` accept exactly two `Bool`s. */
  lemma LogicalTyping(op: BinaryOp, l: Type, r: Type, span: Span)
    requires op == And || op == Or
    ensures CheckBinaryOp(op, l, r, span) == Ok(Type.Bool) <==> l == Type.Bool && r == Type.Bool
    ensures CheckBinaryOp(op, l, r, span).Err? <==> !(l == Type.Bool && r == Type.Bool)
  {
  }

  // ---------------------------------------------------------------- expressions

  /** Literals have their own types; `null` has type `void`. */
  lemma LiteralTyping(vars: Variables, lit: Literal, span: Span)
    ensures var r := CheckExpression(vars, Expr.Literal(lit, span));
      r.Ok? && r.value.0 == Expr.Literal(lit, span)
      && (lit.Int? <==> r.value.1 == Type.Int) && (lit.Float? <==> r.value.1 == Type.Float)
      && (lit.Bool? <==> r.value.1 == Type.Bool) && (lit.String? <==> r.value.1 == Type.String)
      && (lit.Null? <==> r.value.1 == Type.Void)
  {
  }

  /** An identifier has the type it was bound with, and an unbound one is an
      error at its own span. */
  lemma IdentifierTyping(vars: Variables, name: string, span: Span)
    ensures var r := CheckExpression(vars, Expr.Identifier(name, span));
      (r.Ok? <==> name in vars) && (r.Ok? ==> r.value.1 == vars[name])
      && (r.Err? ==> r.error == TypeError(UndefinedVariable(name), Some(span)))
  {
  }

  /** A binary expression checks its left operand first, then its right one, then
      the operator. */
  lemma BinaryTyping(vars: Variables, left: Expr, op: BinaryOp, right: Expr, span: Span)
    ensures var r := CheckExpression(vars, Expr.Binary(left, op, right, span));
      var lc := CheckExpression(vars, left);
      var rc := CheckExpression(vars, right);
      (lc.Err? ==> r == Err(lc.error))
      && (lc.Ok? && rc.Err? ==> r == Err(rc.error))
      && (lc.Ok? && rc.Ok? ==>
            match CheckBinaryOp(op, lc.value.1, rc.value.1, span)
            case Ok(t) => r == Ok((Expr.Binary(left, op, right, span), t))
            case Err(e) => r == Err(e))
  {
  }

  /** Every other form of expression is accepted with a type still to be inferred. */
  lemma OtherExpressionsInferred(vars: Variables, e: Expr)
    requires !e.Literal? && !e.Identifier? && !e.Binary?
    ensures CheckExpression(vars, e) == Ok((e, Type.Inferred))
  {
  }

  // ---------------------------------------------------------------- let

  /** A `let` needs an annotation or an initializer. */
  lemma LetWithoutTypeOrValue(vars: Variables, name: string, span: Span)
    ensures CheckedStatement(vars, Stmt.Let(name, None, None, span)) ==
      Err(TypeError(CannotInferType, Some(span)))
  {
  }

  /** An annotated `let` binds the annotated type, and its initializer, if any,
      must have exactly that type. */
  lemma LetAnnotated(vars: Variables, name: string, t: Type, init: Option<Expr>, span: Span)
    ensures var r := CheckedStatement(vars, Stmt.Let(name, Some(t), init, span));
      (r.Ok? <==> init.None? || (CheckExpression(vars, init.value).Ok? && CheckExpression(vars, init.value).value.1 == t))
      && (r.Ok? ==> r.value.1 == vars[name := t])
      && (init.Some? && CheckExpression(vars, init.value).Ok? && CheckExpression(vars, init.value).value.1 != t ==>
            r == Err(TypeError(TypeMismatch(t, CheckExpression(vars, init.value).value.1), Some(span))))
  {
  }

  /** An unannotated `let` binds the type of its initializer. */
  lemma LetInferred(vars: Variables, name: string, e: Expr, span: Span)
    ensures var r := CheckedStatement(vars, Stmt.Let(name, None, Some(e), span));
      var c := CheckExpression(vars, e);
      (r.Ok? <==> c.Ok?) && (r.Ok? ==> r.value.1 == vars[name := c.value.1])
      && (r.Err? ==> r.error == c.error)
  {
  }

  /** The name is bound only after the initializer is checked: `let x = x` needs
      an earlier `x`. */
  lemma LetCheckedBeforeBinding(vars: Variables, name: string, annotation: Option<Type>, s: Span, span: Span)
    requires name !in vars
    ensures CheckedStatement(vars, Stmt.Let(name, annotation, Some(Expr.Identifier(name, s)), span)) ==
      Err(TypeError(UndefinedVariable(name), Some(s)))
  {
  }

  /** `let y: float = 5` is rejected: `int` is not compatible with `float`. */
  lemma FloatAnnotationRejectsInt(vars: Variables, s: Span, span: Span)
    ensures CheckedStatement(vars, Stmt.Let("y", Some(Type.Float), Some(Expr.Literal(Literal.Int(5), s)), span)) ==
      Err(TypeError(TypeMismatch(Type.Float, Type.Int), Some(span)))
  {
  }

  // ---------------------------------------------------------------- programs

  /** Checking `a + b` is checking `a` and, unless that fails, then `b` with the
      table `a` left behind: the first error aborts the rest. */
  lemma {:induction false} CheckedStatementsSplit(vars: Variables, a: seq<Stmt>, b: seq<Stmt>)
    ensures var ca := CheckedStatements(vars, a);
      CheckedStatements(vars, a + b) ==
        if ca.result.Err? then ca else Prepend(a, CheckedStatements(ca.vars, b))
    decreases |a|
  {
    var ca := CheckedStatements(vars, a);
    if a == [] {
      assert a + b == b;
      PrependNothing(CheckedStatements(vars, b));
    } else {
      assert (a + b)[0] == a[0] && (a + b)[1..] == a[1..] + b;
      match CheckedStatement(vars, a[0])
      case Err(e) =>
      case Ok(sv) =>
        CheckedStatementsSplit(sv.1, a[1..], b);
        var rest := CheckedStatements(sv.1, a[1..]);
        if rest.result.Ok? {
          var cb := CheckedStatements(rest.vars, b);
          PrependOne([], a[0], rest);
          if cb.result.Ok? {
            assert [a[0]] + (a[1..] + cb.result.value) == a + cb.result.value;
          }
        }
    }
  }

  /** A failing statement ends checking with its own error, whatever follows it. */
  lemma FirstErrorAborts(vars: Variables, a: seq<Stmt>, s: Stmt, b: seq<Stmt>)
    requires CheckedStatements(vars, a).result.Ok?
    requires CheckedStatement(CheckedStatements(vars, a).vars, s).Err?
    ensures CheckedStatements(vars, a + [s] + b).result ==
      Err(CheckedStatement(CheckedStatements(vars, a).vars, s).error)
  {
    var ca := CheckedStatements(vars, a);
    CheckedStatementsSplit(vars, a, [s] + b);
    assert ([s] + b)[0] == s;
    assert a + [s] + b == a + ([s] + b);
  }

  /** The table is flat: a binding stays visible to every later statement, and a
      later `let` of the same name replaces it. */
  lemma BindingVisibleLater(vars: Variables, name: string, t: Type, span: Span, rest: seq<Stmt>)
    ensures CheckedStatements(vars, [Stmt.Let(name, Some(t), None, span)] + rest) ==
      Prepend([Stmt.Let(name, Some(t), None, span)], CheckedStatements(vars[name := t], rest))
  {
    var let := Stmt.Let(name, Some(t), None, span);
    assert ([let] + rest)[0] == let && ([let] + rest)[1..] == rest;
  }

  // ---------------------------------------------------------------- declarations

  function FunctionNames(stmts: seq<Stmt>): set<string> {
    set i | 0 <= i < |stmts| && stmts[i].Function? :: stmts[i].name
  }

  function StructNames(stmts: seq<Stmt>): set<string> {
    set i | 0 <= i < |stmts| && stmts[i].Struct? :: stmts[i].name
  }

  lemma FunctionNamesCons(stmts: seq<Stmt>)
    requires stmts != []
    ensures FunctionNames(stmts) ==
      (if stmts[0].Function? then {stmts[0].name} else {}) + FunctionNames(stmts[1..])
  {
    var rest := stmts[1..];
    forall n | n in FunctionNames(stmts)
      ensures n in (if stmts[0].Function? then {stmts[0].name} else {}) + FunctionNames(rest)
    {
      var i :| 0 <= i < |stmts| && stmts[i].Function? && stmts[i].name == n;
      if i > 0 {
        assert rest[i - 1] == stmts[i];
      }
    }
    forall n | n in FunctionNames(rest) ensures n in FunctionNames(stmts) {
      var i :| 0 <= i < |rest| && rest[i].Function? && rest[i].name == n;
      assert stmts[i + 1] == rest[i];
    }
  }

  lemma StructNamesCons(stmts: seq<Stmt>)
    requires stmts != []
    ensures StructNames(stmts) ==
      (if stmts[0].Struct? then {stmts[0].name} else {}) + StructNames(stmts[1..])
  {
    var rest := stmts[1..];
    forall n | n in StructNames(stmts)
      ensures n in (if stmts[0].Struct? then {stmts[0].name} else {}) + StructNames(rest)
    {
      var i :| 0 <= i < |stmts| && stmts[i].Struct? && stmts[i].name == n;
      if i > 0 {
        assert rest[i - 1] == stmts[i];
      }
    }
    forall n | n in StructNames(rest) ensures n in StructNames(stmts) {
      var i :| 0 <= i < |rest| && rest[i].Struct? && rest[i].name == n;
      assert stmts[i + 1] == rest[i];
    }
  }

  /** Registration enters every declared function, and nothing else. */
  lemma {:induction false} RegisteredFunctions(fs: map<string, Signature>, stmts: seq<Stmt>)
    ensures RegisterFunctions(fs, stmts).Keys == fs.Keys + FunctionNames(stmts)
    decreases |stmts|
  {
    if stmts != [] {
      var s := stmts[0];
      RegisteredFunctions(if s.Function? then fs[s.name := (ParamTypes(s.params), s.returnType)] else fs, stmts[1..]);
      FunctionNamesCons(stmts);
    }
  }

  /** Registration enters every declared struct, and nothing else. */
  lemma {:induction false} RegisteredStructs(ss: map<string, map<string, Type>>, stmts: seq<Stmt>)
    ensures RegisterStructs(ss, stmts).Keys == ss.Keys + StructNames(stmts)
    decreases |stmts|
  {
    if stmts != [] {
      var s := stmts[0];
      RegisteredStructs(if s.Struct? then ss[s.name := FieldTable(map[], s.fields)] else ss, stmts[1..]);
      StructNamesCons(stmts);
    }
  }

  /** A name no later declaration uses keeps its entry. */
  lemma {:induction false} UndeclaredFunctionKept(fs: map<string, Signature>, stmts: seq<Stmt>, name: string)
    requires name in fs && name !in FunctionNames(stmts)
    ensures name in RegisterFunctions(fs, stmts) && RegisterFunctions(fs, stmts)[name] == fs[name]
    decreases |stmts|
  {
    if stmts != [] {
      var s := stmts[0];
      FunctionNamesCons(stmts);
      UndeclaredFunctionKept(if s.Function? then fs[s.name := (ParamTypes(s.params), s.returnType)] else fs, stmts[1..], name);
    }
  }

  /** A function's entry is the signature of its last declaration. */
  lemma LastDeclarationWins(fs: map<string, Signature>, before: seq<Stmt>, name: string,
                            params: seq<(string, Type)>, ret: Type, body: Stmt, span: Span, after: seq<Stmt>)
    requires name !in FunctionNames(after)
    ensures var stmts := before + [Stmt.Function(name, params, ret, body, span)] + after;
      name in RegisterFunctions(fs, stmts) && RegisterFunctions(fs, stmts)[name] == (ParamTypes(params), ret)
  {
    var decl := Stmt.Function(name, params, ret, body, span);
    RegisterFunctionsAppend(fs, before, [decl] + after);
    assert before + [decl] + after == before + ([decl] + after);
    assert ([decl] + after)[0] == decl && ([decl] + after)[1..] == after;
    var mid := RegisterFunctions(fs, before);
    UndeclaredFunctionKept(mid[name := (ParamTypes(params), ret)], after, name);
  }

  lemma {:induction false} RegisterFunctionsAppend(fs: map<string, Signature>, a: seq<Stmt>, b: seq<Stmt>)
    ensures RegisterFunctions(fs, a + b) == RegisterFunctions(RegisterFunctions(fs, a), b)
    decreases |a|
  {
    if a == [] {
      assert a + b == b;
    } else {
      var s := a[0];
      assert (a + b)[0] == s && (a + b)[1..] == a[1..] + b;
      RegisterFunctionsAppend(if s.Function? then fs[s.name := (ParamTypes(s.params), s.returnType)] else fs, a[1..], b);
    }
  }

  function FieldNames(fields: seq<(string, Type)>): set<string> {
    set i | 0 <= i < |fields| :: fields[i].0
  }

  /** A struct's field table has an entry for each field name and no other. */
  lemma {:induction false} FieldTableKeys(m: map<string, Type>, fields: seq<(string, Type)>)
    ensures FieldTable(m, fields).Keys == m.Keys + FieldNames(fields)
    decreases |fields|
  {
    if fields != [] {
      FieldTableKeys(m[fields[0].0 := fields[0].1], fields[1..]);
      var rest := fields[1..];
      forall n | n in FieldNames(fields) ensures n == fields[0].0 || n in FieldNames(rest) {
        var i :| 0 <= i < |fields| && fields[i].0 == n;
        if i > 0 {
          assert rest[i - 1] == fields[i];
        }
      }
      forall n | n in FieldNames(rest) ensures n in FieldNames(fields) {
        var i :| 0 <= i < |rest| && rest[i].0 == n;
        assert fields[i + 1] == rest[i];
      }
      assert fields[0].0 in FieldNames(fields);
    }
  }
}
