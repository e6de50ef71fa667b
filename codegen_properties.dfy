/** Properties of the C lowering: literals, the operator table, string folding,
    the shape of statement lines and of the generated file. */
module CodegenProperties {
  import opened Wrappers
  import opened Strings
  import opened Ast
  import opened Codegen

  // ---------------------------------------------------------------- expressions

  /** Distinct operators are spelled differently in C. */
  lemma OpSymbolInjective(a: BinaryOp, b: BinaryOp)
    ensures OpSymbol(a) == OpSymbol(b) <==> a == b
  {
  }

  /** Literals: booleans as `1`/`0`, `null` as `NULL`, a string between quotes
      exactly as written (nothing is escaped). */
  lemma LiteralLowering(s: string)
    ensures LiteralCode(Literal.Bool(true)) == "1" && LiteralCode(Literal.Bool(false)) == "0"
    ensures LiteralCode(Literal.Null) == "NULL"
    ensures Quoted(LiteralCode(Literal.String(s))) && Inner(LiteralCode(Literal.String(s))) == s
  {
    QuoteRoundTrip(s);
  }

  /** Quoting a text gives a quoted code whose inner text is that text. */
  lemma QuoteRoundTrip(s: string)
    ensures Quoted("\"" + s + "\"") && Inner("\"" + s + "\"") == s
  {
    var code := "\"" + s + "\"";
    assert code[1..|code| - 1] == s;
  }

  /** An integer is lowered to its decimal form, which reads back as the same number. */
  lemma IntLiteralReadsBack(i: i64)
    ensures var code := LiteralCode(Literal.Int(i));
      |code| >= 1 && (code[0] == '-' || IsDigit(code[0])) && AllDigits(code[1..])
      && ParseInt(code) == i as int
  {
    IntStringRoundTrip(i as int);
  }

  /** A binary expression that is not `+` on a string literal is lowered to the
      parenthesised C operation on its operands' codes. */
  lemma BinaryLowering(left: Expr, op: BinaryOp, right: Expr, span: Span)
    requires !(op == Add && Quoted(ExprCode(left)))
    ensures ExprCode(Expr.Binary(left, op, right, span)) ==
      "(" + ExprCode(left) + " " + OpSymbol(op) + " " + ExprCode(right) + ")"
  {
  }

  /** Two string literal codes joined by `+` fold into one literal of both
      contents, so chains of literals fold completely. */
  lemma StringsFold(left: Expr, right: Expr, span: Span)
    requires Quoted(ExprCode(left)) && Quoted(ExprCode(right))
    ensures var code := ExprCode(Expr.Binary(left, Add, right, span));
      Quoted(code) && Inner(code) == Inner(ExprCode(left)) + Inner(ExprCode(right))
  {
    QuoteRoundTrip(Inner(ExprCode(left)) + Inner(ExprCode(right)));
  }

  /** `"a" + "b" + "c"` lowers to the single literal `"abc"`. */
  lemma StringChainExample(sp: Span)
    ensures ExprCode(Expr.Binary(Expr.Binary(Expr.Literal(Literal.String("a"), sp), Add, Expr.Literal(Literal.String("b"), sp), sp),
                                 Add, Expr.Literal(Literal.String("c"), sp), sp)) == "\"abc\""
  {
    var a := Expr.Literal(Literal.String("a"), sp);
    var b := Expr.Literal(Literal.String("b"), sp);
    var c := Expr.Literal(Literal.String("c"), sp);
    LiteralLowering("a");
    LiteralLowering("b");
    LiteralLowering("c");
    StringsFold(a, b, sp);
    StringsFold(Expr.Binary(a, Add, b, sp), c, sp);
    var code := ExprCode(Expr.Binary(Expr.Binary(a, Add, b, sp), Add, c, sp));
    assert Inner(code) == "abc";
  }

  /** A string literal code on the left of `+` with anything else on the right
      becomes `concat_str_int`, whatever the right operand's type is. */
  lemma ConcatFallback(left: Expr, right: Expr, span: Span)
    requires Quoted(ExprCode(left)) && !Quoted(ExprCode(right))
    ensures ExprCode(Expr.Binary(left, Add, right, span)) ==
      "concat_str_int(" + ExprCode(left) + ", " + ExprCode(right) + ")"
  {
  }

  /** Even a float on the right goes to the integer helper: `"x" + 2.5` lowers to
      `concat_str_int("x", 2.5)`. */
  lemma FloatGoesToIntHelper(sp: Span)
    ensures ExprCode(Expr.Binary(Expr.Literal(Literal.String("x"), sp), Add,
                                 Expr.Literal(Literal.Float(Float64("2.5")), sp), sp)) ==
      "concat_str_int(\"x\", 2.5)"
  {
  }

  /** A string literal on the right alone triggers neither special case:
      `1 + "a"` lowers to `(1 + "a")`. */
  lemma QuotedRightAlone(sp: Span)
    ensures ExprCode(Expr.Binary(Expr.Literal(Literal.Int(1), sp), Add, Expr.Literal(Literal.String("a"), sp), sp)) ==
      "(1 + \"a\")"
  {
    assert LiteralCode(Literal.Int(1)) == "1";
  }

  /** Unary operators are applied inside parentheses. */
  lemma UnaryLowering(op: UnaryOp, operand: Expr, span: Span)
    ensures ExprCode(Expr.Unary(op, operand, span)) ==
      "(" + (if op == Neg then "-" else "!") + ExprCode(operand) + ")"
  {
  }

  /** A call lists its arguments' codes after the callee, separated by `", "`
      and with no separator before the first or after the last. */
  lemma CallLowering(callee: Expr, first: Expr, rest: seq<Expr>, span: Span)
    ensures ExprCode(Expr.Call(callee, [], span)) == ExprCode(callee) + "()"
    ensures ExprCode(Expr.Call(callee, [first] + rest, span)) ==
      ExprCode(callee) + "("
      + (if rest == [] then ExprCode(first) else ExprCode(first) + ", " + Join(ArgsCode(rest), ", "))
      + ")"
  {
    var args := [first] + rest;
    assert args[1..] == rest;
    var parts := ArgsCode(args);
    assert parts == [ExprCode(first)] + ArgsCode(rest);
    assert parts[1..] == ArgsCode(rest);
    assert Join(parts, ", ") ==
      (if rest == [] then ExprCode(first) else ExprCode(first) + ", " + Join(ArgsCode(rest), ", "));
  }

  /** Forms with no lowering become a C comment. */
  lemma UnhandledExpression(e: Expr)
    requires !e.Literal? && !e.Identifier? && !e.Binary? && !e.Unary? && !e.Call?
    ensures ExprCode(e) == "/* Expression not implemented yet */"
  {
  }

  // ---------------------------------------------------------------- statements

  /** Every variable is declared `int`: the annotation makes no difference, and a
      missing initializer is the same as `= 0`. */
  lemma LetAlwaysInt(level: nat, name: string, a: Option<Type>, b: Option<Type>, init: Option<Expr>,
                     span: Span, span': Span, s: Span)
    ensures StatementCode(level, Stmt.Let(name, a, init, span)) ==
            StatementCode(level, Stmt.Let(name, b, init, span'))
    ensures StatementCode(level, Stmt.Let(name, a, None, span)) ==
            StatementCode(level, Stmt.Let(name, b, Some(Expr.Literal(Literal.Int(0), s)), span'))
    ensures StatementCode(level, Stmt.Let(name, a, None, span)) ==
            Indent(level) + "int " + name + " = 0;\n"
  {
    assert LiteralCode(Literal.Int(0)) == "0";
  }

  /** An assignment is one line: the target's code, `=`, the value's code and a
      semicolon; a `let` with an initializer is the assignment to its name with
      `int ` in front. */
  lemma AssignLowering(level: nat, name: string, a: Option<Type>, value: Expr, span: Span, s: Span, span': Span)
    ensures StatementCode(level, Stmt.Assign(Expr.Identifier(name, s), value, span')) ==
            Indent(level) + name + " = " + ExprCode(value) + ";\n"
    ensures StatementCode(level, Stmt.Let(name, a, Some(value), span)) ==
            Indent(level) + "int " + StatementCode(0, Stmt.Assign(Expr.Identifier(name, s), value, span'))
  {
    var v := ExprCode(value);
    assert Indent(0) == "";
    assert StatementCode(0, Stmt.Assign(Expr.Identifier(name, s), value, span')) == name + " = " + v + ";\n";
    assert Indent(level) + "int " + (name + " = " + v + ";\n")
        == Indent(level) + "int " + name + " = " + v + ";\n";
  }

  /** `main` contributes its block's statements at the current level, without a
      header of its own; with any other body it contributes nothing. */
  lemma MainInlined(level: nat, params: seq<(string, Type)>, ret: Type, body: Stmt, span: Span)
    ensures StatementCode(level, Stmt.Function("main", params, ret, body, span)) ==
      if body.Block? then StatementsCode(level, body.stmts) else ""
  {
  }

  /** Every other function becomes a single comment line that depends on its name only. */
  lemma OtherFunctionComment(level: nat, name: string, params: seq<(string, Type)>, ret: Type, body: Stmt, span: Span,
                             params': seq<(string, Type)>, ret': Type, body': Stmt, span': Span)
    requires name != "main"
    ensures StatementCode(level, Stmt.Function(name, params, ret, body, span)) ==
            StatementCode(level, Stmt.Function(name, params', ret', body', span'))
    ensures StatementCode(level, Stmt.Function(name, params, ret, body, span)) ==
            Indent(level) + "// Function " + name + " not implemented yet\n"
  {
  }

  /** Returns, `for` loops, nested blocks, structs and imports become the same comment line. */
  lemma UnhandledStatement(level: nat, s: Stmt)
    requires s.Return? || s.For? || s.Block? || s.Struct? || s.Import?
    ensures StatementCode(level, s) == Indent(level) + "// Statement not implemented yet\n"
  {
  }

  /** A loop whose body is a block of one statement lowers like a loop whose body
      is that statement, unless that statement is itself a block. */
  lemma WhileSingletonBlock(level: nat, cond: Expr, s: Stmt, bs: Span, span: Span)
    requires !s.Block?
    ensures StatementCode(level, Stmt.While(cond, Stmt.Block([s], bs), span)) ==
            StatementCode(level, Stmt.While(cond, s, span))
  {
    assert [s][1..] == [];
    assert StatementsCode(level + 1, [s]) == StatementCode(level + 1, s) + "";
    assert StatementCode(level + 1, s) + "" == StatementCode(level + 1, s);
    assert BodyCode(level + 1, Stmt.Block([s], bs)) == BodyCode(level + 1, s);
    assert WhileCode(level, cond, Stmt.Block([s], bs)) == WhileCode(level, cond, s);
  }

  /** An `if` branch that is a block holding one plain expression statement
      lowers like the bare expression. */
  lemma BranchSingletonBlock(level: nat, e: Expr, bs: Span)
    requires !e.If? && !e.Block?
    ensures BranchCode(level, Expr.Block([Stmt.Expr(e)], bs)) == BranchCode(level, e)
  {
    assert [Stmt.Expr(e)][1..] == [];
    assert StatementsCode(level, [Stmt.Expr(e)]) == StatementCode(level, Stmt.Expr(e)) + "";
    assert StatementCode(level, Stmt.Expr(e)) + "" == StatementCode(level, Stmt.Expr(e));
  }

  /** The code of a statement list is the code of its parts, one after the other. */
  lemma {:induction false} StatementsCodeAppend(level: nat, a: seq<Stmt>, b: seq<Stmt>)
    ensures StatementsCode(level, a + b) == StatementsCode(level, a) + StatementsCode(level, b)
    decreases |a|
  {
    if a == [] {
      assert a + b == b;
    } else {
      assert (a + b)[0] == a[0] && (a + b)[1..] == a[1..] + b;
      StatementsCodeAppend(level, a[1..], b);
    }
  }

  /** Code made of whole lines at `level`: empty, or starting with that level's
      indentation and ending with a newline. */
  predicate Lines(level: nat, code: string) {
    code == "" || (StartsWith(code, Indent(level)) && code[|code| - 1] == '\n')
  }

  lemma LinesConcat(level: nat, a: string, b: string)
    requires Lines(level, a) && Lines(level, b)
    ensures Lines(level, a + b)
  {
    if a == "" {
      assert a + b == b;
    } else {
      var k := |Indent(level)|;
      assert (a + b)[..k] == a[..k];
    }
  }

  /** Appending keeps a prefix. */
  lemma PrefixKept(p: string, a: string, b: string)
    requires StartsWith(a, p)
    ensures StartsWith(a + b, p)
  {
    assert (a + b)[..|p|] == a[..|p|];
  }

  /** Whatever is appended to the indentation keeps it in front. */
  lemma IndentKept(level: nat)
    ensures forall a, b :: StartsWith(a, Indent(level)) ==> StartsWith(a + b, Indent(level))
    ensures StartsWith(Indent(level), Indent(level))
  {
    forall a, b | StartsWith(a, Indent(level)) ensures StartsWith(a + b, Indent(level)) {
      PrefixKept(Indent(level), a, b);
    }
    assert Indent(level)[..|Indent(level)|] == Indent(level);
  }

  /** Every statement lowers to whole lines at its level; nothing is left
      unterminated or outdented. */
  lemma {:induction false} StatementLines(level: nat, s: Stmt)
    ensures Lines(level, StatementCode(level, s))
    decreases s, 0
  {
    if s.Function? && s.name == "main" {
      if s.body.Block? {
        StatementsLines(level, s.body.stmts);
      }
    } else if s.Expr? && s.expr.If? {
      IfLines(level, s.expr);
    } else if s.While? {
      WhileLines(level, s.cond, s.body, s.span);
    } else {
      SimpleLines(level, s);
    }
  }

  lemma IfLines(level: nat, e: Expr)
    requires e.If?
    ensures Lines(level, StatementCode(level, Stmt.Expr(e)))
  {
    IndentKept(level);
  }

  lemma WhileLines(level: nat, cond: Expr, body: Stmt, span: Span)
    ensures Lines(level, StatementCode(level, Stmt.While(cond, body, span)))
  {
    IndentKept(level);
  }

  /** The statements lowered to one line. */
  lemma SimpleLines(level: nat, s: Stmt)
    requires !(s.Function? && s.name == "main") && !(s.Expr? && s.expr.If?) && !s.While?
    ensures Lines(level, StatementCode(level, s))
  {
    IndentKept(level);
  }

  lemma {:induction false} StatementsLines(level: nat, stmts: seq<Stmt>)
    ensures Lines(level, StatementsCode(level, stmts))
    decreases stmts
  {
    if stmts != [] {
      StatementLines(level, stmts[0]);
      StatementsLines(level, stmts[1..]);
      LinesConcat(level, StatementCode(level, stmts[0]), StatementsCode(level, stmts[1..]));
    }
  }

  // ---------------------------------------------------------------- programs

  /** A fresh generator writes the preamble, then `main` with the statements at
      one level of indentation and its closing `return 0;`. */
  lemma GeneratedFile(program: Program)
    ensures var code := ProgramCode(0, program);
      var body := StatementsCode(1, program.statements);
      code == Preamble + "int main() {\n" + body + "    return 0;\n}\n"
      && Lines(1, body)
  {
    StatementsLines(1, program.statements);
    assert Indent(1) == "    ";
  }

  /** An empty program still gets the runtime and a `main` that returns 0. */
  lemma EmptyProgram()
    ensures ProgramCode(0, Program([])) == Preamble + "int main() {\n    return 0;\n}\n"
  {
    assert Indent(1) == "    ";
  }

  /** The runtime declares the print helpers and both concatenation helpers. */
  lemma PreambleDeclaresRuntime()
    ensures "void print(const char* message) {" in PreambleLines
    ensures "void print_int(int value) {" in PreambleLines
    ensures "void print_float(double value) {" in PreambleLines
    ensures "char* concat_str_int(const char* str, int num) {" in PreambleLines
    ensures "char* concat_str_float(const char* str, double num) {" in PreambleLines
  {
    assert PreambleLines[7] == "void print(const char* message) {";
    assert PreambleLines[11] == "void print_int(int value) {";
    assert PreambleLines[15] == "void print_float(double value) {";
    assert PreambleLines[19] == "char* concat_str_int(const char* str, int num) {";
    assert PreambleLines[28] == "char* concat_str_float(const char* str, double num) {";
  }

  // ---------------------------------------------------------------- the lone quote

  /** As written, an identifier spelled `"` on the left of `+` passes the string
      test, and with a string literal on the right the quote-stripping slice
      runs backwards: generation panics. */
  lemma LoneQuotePanics(sp: Span)
    ensures ExprCode(Expr.Identifier("\"", sp)) == "\""
    ensures QuotedAsWritten("\"") && !Quoted("\"")
    ensures AddCodeAsWritten("\"", LiteralCode(Literal.String("x"))) == None
  {
  }

  /** Everywhere else the as-written lowering of `+` is the one the model uses;
      the model's never fails. */
  lemma AddCodeAgrees(l: string, r: string)
    requires l != "\"" && r != "\""
    ensures AddCodeAsWritten(l, r) == Some(AddCode(l, r))
  {
    assert QuotedAsWritten(l) <==> Quoted(l);
    assert QuotedAsWritten(r) <==> Quoted(r);
  }
}
