/** The code generator: lowers a syntax tree to C text.

    The text is specified by functions of the tree and of the indentation
    level; `CodeGenerator` holds the level as a field, raises and lowers it
    around nested bodies, and is proved to produce exactly that text. */
module Codegen {
  import opened Wrappers
  import opened Strings
  import opened Ast

  datatype CodegenError = CodegenError(message: string)

  /** The indentation for `level`: four spaces per level. */
  function Indent(level: nat): (r: string)
    ensures |r| == 4 * level
    ensures forall i :: 0 <= i < |r| ==> r[i] == ' '
  {
    Repeat("    ", level)
  }

  /** The C spelling of each binary operator. */
  function OpSymbol(op: BinaryOp): string {
    match op
    case Add => "+"
    case Sub => "-"
    case Mul => "*"
    case Div => "/"
    case Mod => "%"
    case Eq => "=="
    case Neq => "!="
    case Lt => "<"
    case Lte => "<="
    case Gt => ">"
    case Gte => ">="
    case And => "&&"
    case Or => "||"
  }

  function UnarySymbol(op: UnaryOp): string {
    match op
    case Neg => "-"
    case Not => "!"
  }

  /** The C text of a literal; a string is put between quotes as it is, with no escaping. */
  function LiteralCode(lit: Literal): string {
    match lit
    case Int(i) => IntString(i as int)
    case Float(f) => f.text
    case Bool(b) => if b then "1" else "0"
    case String(s) => "\"" + s + "\""
    case Null => "NULL"
  }

  /** The test the folding needs to recognise the code of a string literal: an
      opening quote and a distinct closing quote. */
  predicate Quoted(code: string) {
    |code| >= 2 && code[0] == '"' && code[|code| - 1] == '"'
  }

  /** The text between the quotes. */
  function Inner(code: string): (r: string)
    requires Quoted(code)
    ensures "\"" + r + "\"" == code
  {
    code[1..|code| - 1]
  }

  /** The lowering of `+` from the codes of its operands: two string literals
      fold into one, a string literal on the left becomes a call of the runtime's
      `concat_str_int`, and anything else becomes a C addition. */
  function AddCode(l: string, r: string): (code: string)
    ensures Quoted(l) && Quoted(r) ==> Quoted(code) && Inner(code) == Inner(l) + Inner(r)
    ensures Quoted(l) && !Quoted(r) ==> code == "concat_str_int(" + l + ", " + r + ")"
  {
    if Quoted(l) then
      if Quoted(r) then
        var folded := "\"" + (Inner(l) + Inner(r)) + "\"";
        assert folded[1..|folded| - 1] == Inner(l) + Inner(r);
        folded
      else "concat_str_int(" + l + ", " + r + ")"
    else "(" + l + " " + OpSymbol(Add) + " " + r + ")"
  }

  /** The test as the generator writes it: starts with a quote and ends with a
      quote, which the single character `"` also passes. */
  predicate QuotedAsWritten(code: string) {
    |code| >= 1 && code[0] == '"' && code[|code| - 1] == '"'
  }

  /** The lowering of `+` as written, `None` where the slice that strips the
      quotes would panic (its start is past its end). */
  function AddCodeAsWritten(l: string, r: string): Option<string> {
    if QuotedAsWritten(l) then
      if QuotedAsWritten(r) then
        if 1 <= |l| - 1 && 1 <= |r| - 1 then Some("\"" + (l[1..|l| - 1] + r[1..|r| - 1]) + "\"") else None
      else Some("concat_str_int(" + l + ", " + r + ")")
    else Some("(" + l + " " + OpSymbol(Add) + " " + r + ")")
  }

  /** The C text of an expression. Every form that is not a literal, a name or a
      folded string is fully parenthesised; forms without a lowering become a
      comment. */
  function ExprCode(e: Expr): string
    decreases e
  {
    match e
    case Literal(lit, _) => LiteralCode(lit)
    case Identifier(name, _) => name
    case Binary(left, op, right, _) =>
      if op == Add then AddCode(ExprCode(left), ExprCode(right))
      else "(" + ExprCode(left) + " " + OpSymbol(op) + " " + ExprCode(right) + ")"
    case Unary(op, operand, _) => "(" + UnarySymbol(op) + ExprCode(operand) + ")"
    case Call(callee, args, _) => ExprCode(callee) + "(" + Join(ArgsCode(args), ", ") + ")"
    case _ => "/* Expression not implemented yet */"
  }

  /** The C text of each argument, in order. */
  function ArgsCode(args: seq<Expr>): (r: seq<string>)
    ensures |r| == |args|
    ensures forall i :: 0 <= i < |args| ==> r[i] == ExprCode(args[i])
    decreases args
  {
    if |args| == 0 then [] else [ExprCode(args[0])] + ArgsCode(args[1..])
  }

  /** The lines of a statement lowered at `level`. */
  function StatementCode(level: nat, s: Stmt): string
    decreases s, 0
  {
    match s
    case Expr(e) =>
      if e.If? then IfCode(level, e) else Indent(level) + ExprCode(e) + ";\n"
    case Function(name, _, _, body, _) =>
      if name == "main" then
        if body.Block? then StatementsCode(level, body.stmts) else ""
      else Indent(level) + "// Function " + name + " not implemented yet\n"
    case Let(name, _, init, _) =>
      Indent(level) + "int " + name + " = " + (if init.Some? then ExprCode(init.value) else "0") + ";\n"
    case Assign(target, value, _) =>
      Indent(level) + ExprCode(target) + " = " + ExprCode(value) + ";\n"
    case While(cond, body, _) => WhileCode(level, cond, body)
    case _ => Indent(level) + "// Statement not implemented yet\n"
  }

  /** An `if` used as a statement: the branches one level deeper, the closing
      braces at this level. */
  function IfCode(level: nat, e: Expr): string
    requires e.If?
    decreases e, 2
  {
    Indent(level) + "if (" + ExprCode(e.cond) + ") {\n"
    + BranchCode(level + 1, e.thenBranch) + Indent(level) + "}"
    + (if e.elseBranch.Some? then " else {\n" + BranchCode(level + 1, e.elseBranch.value) + Indent(level) + "}" else "")
    + "\n"
  }

  /** A `while` loop: its body one level deeper, a block's statements inlined. */
  function WhileCode(level: nat, cond: Expr, body: Stmt): string
    decreases body, 3
  {
    Indent(level) + "while (" + ExprCode(cond) + ") {\n" + BodyCode(level + 1, body) + Indent(level) + "}\n"
  }

  /** The body of a loop: a block's statements inlined, any other statement as it is. */
  function BodyCode(level: nat, body: Stmt): string
    decreases body, 1
  {
    if body.Block? then StatementsCode(level, body.stmts) else StatementCode(level, body)
  }

  /** A branch of an `if`: a block's statements, or one expression line. */
  function BranchCode(level: nat, e: Expr): string
    decreases e, 1
  {
    if e.Block? then StatementsCode(level, e.stmts) else Indent(level) + ExprCode(e) + ";\n"
  }

  /** The statements' lines, one after the other. */
  function StatementsCode(level: nat, stmts: seq<Stmt>): string
    decreases stmts
  {
    if |stmts| == 0 then "" else StatementCode(level, stmts[0]) + StatementsCode(level, stmts[1..])
  }

  /** The lines of the fixed runtime written ahead of `main`: the includes and
      the print and concatenation helpers. */
  const PreambleLines: seq<string> := [
    "#include <stdio.h>",
    "#include <stdlib.h>",
    "#include <stdbool.h>",
    "#include <string.h>",
    "#include <math.h>",
    "",
    "// Z language runtime functions",
    "void print(const char* message) {",
    "    printf(\"%s\\n\", message);",
    "}",
    "",
    "void print_int(int value) {",
    "    printf(\"%d\\n\", value);",
    "}",
    "",
    "void print_float(double value) {",
    "    printf(\"%f\\n\", value);",
    "}",
    "",
    "char* concat_str_int(const char* str, int num) {",
    "    char buffer[32];",
    "    sprintf(buffer, \"%d\", num);",
    "    char* result = malloc(strlen(str) + strlen(buffer) + 1);",
    "    strcpy(result, str);",
    "    strcat(result, buffer);",
    "    return result;",
    "}",
    "",
    "char* concat_str_float(const char* str, double num) {",
    "    char buffer[32];",
    "    sprintf(buffer, \"%f\", num);",
    "    char* result = malloc(strlen(str) + strlen(buffer) + 1);",
    "    strcpy(result, str);",
    "    strcat(result, buffer);",
    "    return result;",
    "}",
    ""
  ]

  const Preamble: string := Unlines(PreambleLines)

  /** The whole C file for a program, generated from `level`: the preamble, then
      `main` holding every statement one level deeper and a final `return 0;`. */
  function ProgramCode(level: nat, program: Program): string {
    Preamble + "int main() {\n" + StatementsCode(level + 1, program.statements)
    + Indent(level + 1) + "return 0;\n" + "}\n"
  }

  class CodeGenerator {
    var indentLevel: nat

    constructor ()
      ensures indentLevel == 0
    {
      indentLevel := 0;
    }

    /** Lowers a whole program; the level is back where it started afterwards. */
    method Generate(program: Program) returns (r: Result<string, CodegenError>)
      modifies this
      ensures r == Ok(ProgramCode(old(indentLevel), program))
      ensures indentLevel == old(indentLevel)
    {
      var head := Preamble + "int main() {\n";
      var code := head;
      indentLevel := indentLevel + 1;
      var stmts := program.statements;
      var i := 0;
      while i < |stmts|
        invariant 0 <= i <= |stmts|
        invariant indentLevel == old(indentLevel) + 1
        invariant code + StatementsCode(indentLevel, stmts[i..]) == head + StatementsCode(indentLevel, stmts)
      {
        var line := GenerateStatement(stmts[i]);
        assert stmts[i..][1..] == stmts[i + 1..];
        code := code + line;
        i := i + 1;
      }
      assert stmts[|stmts|..] == [];
      assert code + "" == code;
      code := code + Indent(indentLevel) + "return 0;\n";
      indentLevel := indentLevel - 1;
      code := code + "}\n";
      r := Ok(code);
    }

    /** Lowers one statement at the current level, which it leaves unchanged. */
    method GenerateStatement(s: Stmt) returns (code: string)
      modifies this
      ensures code == StatementCode(old(indentLevel), s)
      ensures indentLevel == old(indentLevel)
      decreases s, 0
    {
      match s
      case Expr(e) =>
        if e.If? {
          code := GenerateIf(e);
        } else {
          code := Indent(indentLevel) + ExprCode(e) + ";\n";
        }
      case Function(name, _, _, body, _) =>
        if name == "main" {
          if body.Block? {
            code := GenerateBlock(body.stmts);
          } else {
            code := "";
          }
        } else {
          code := Indent(indentLevel) + "// Function " + name + " not implemented yet\n";
        }
      case Let(name, _, init, _) =>
        var initCode := if init.Some? then ExprCode(init.value) else "0";
        code := Indent(indentLevel) + "int " + name + " = " + initCode + ";\n";
      case Assign(target, value, _) =>
        code := Indent(indentLevel) + ExprCode(target) + " = " + ExprCode(value) + ";\n";
      case While(cond, body, _) =>
        code := GenerateWhile(cond, body);
      case _ =>
        code := Indent(indentLevel) + "// Statement not implemented yet\n";
    }

    /** Lowers an `if` statement: the level goes up for each branch and back down
        before its closing brace. */
    method GenerateIf(e: Expr) returns (code: string)
      requires e.If?
      modifies this
      ensures code == IfCode(old(indentLevel), e)
      ensures indentLevel == old(indentLevel)
      decreases e, 2
    {
      code := Indent(indentLevel) + "if (" + ExprCode(e.cond) + ") {\n";
      indentLevel := indentLevel + 1;
      var thenCode := GenerateBranch(e.thenBranch);
      code := code + thenCode;
      indentLevel := indentLevel - 1;
      code := code + Indent(indentLevel) + "}";
      if e.elseBranch.Some? {
        code := code + " else {\n";
        indentLevel := indentLevel + 1;
        var elseCode := GenerateBranch(e.elseBranch.value);
        code := code + elseCode;
        indentLevel := indentLevel - 1;
        code := code + Indent(indentLevel) + "}";
      }
      code := code + "\n";
    }

    /** Lowers a `while` loop: the level goes up for the body and back down
        before the closing brace. */
    method GenerateWhile(cond: Expr, body: Stmt) returns (code: string)
      modifies this
      ensures code == WhileCode(old(indentLevel), cond, body)
      ensures indentLevel == old(indentLevel)
      decreases body, 3
    {
      code := Indent(indentLevel) + "while (" + ExprCode(cond) + ") {\n";
      indentLevel := indentLevel + 1;
      var bodyCode := GenerateBody(body);
      code := code + bodyCode;
      indentLevel := indentLevel - 1;
      code := code + Indent(indentLevel) + "}\n";
    }

    /** Lowers the body of a loop at the current level. */
    method GenerateBody(body: Stmt) returns (code: string)
      modifies this
      ensures code == BodyCode(old(indentLevel), body)
      ensures indentLevel == old(indentLevel)
      decreases body, 1
    {
      if body.Block? {
        code := GenerateBlock(body.stmts);
      } else {
        code := GenerateStatement(body);
      }
    }

    /** Lowers a branch of an `if` at the current level. */
    method GenerateBranch(e: Expr) returns (code: string)
      modifies this
      ensures code == BranchCode(old(indentLevel), e)
      ensures indentLevel == old(indentLevel)
      decreases e, 1
    {
      if e.Block? {
        code := GenerateBlock(e.stmts);
      } else {
        code := Indent(indentLevel) + ExprCode(e) + ";\n";
      }
    }

    /** Lowers the statements of a block one after the other at the current level. */
    method GenerateBlock(stmts: seq<Stmt>) returns (code: string)
      modifies this
      ensures code == StatementsCode(old(indentLevel), stmts)
      ensures indentLevel == old(indentLevel)
      decreases stmts
    {
      code := "";
      var i := 0;
      while i < |stmts|
        invariant 0 <= i <= |stmts|
        invariant indentLevel == old(indentLevel)
        invariant code + StatementsCode(indentLevel, stmts[i..]) == StatementsCode(indentLevel, stmts)
      {
        var line := GenerateStatement(stmts[i]);
        assert stmts[i..][1..] == stmts[i + 1..];
        code := code + line;
        i := i + 1;
      }
      assert stmts[|stmts|..] == [];
    }
  }

  /** `generate_ir`: a fresh generator lowers the program; this never fails. */
  method GenerateIr(program: Program) returns (r: Result<string, CodegenError>)
    ensures r == Ok(ProgramCode(0, program))
  {
    var generator := new CodeGenerator();
    r := generator.Generate(program);
  }
}
