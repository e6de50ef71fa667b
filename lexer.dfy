/** Token kinds and the token record the lexer hands to the parser.
    The scanner itself is not part of this model. */
module Lexer {
  /** The kind of a token. The enumeration has no payloads, so a kind is its
      discriminant: the position of the variant in declaration order, as for any
      field-less enumeration. `Comment`, `MultiLineComment` and `Whitespace` are
      skipped by the scanner and never reach the parser; `Error` is the kind of an
      unrecognised lexeme. */
  newtype Token = k: int | 0 <= k < 48

  // keywords
  const Fn: Token := 0
  const Let: Token := 1
  const If: Token := 2
  const Else: Token := 3
  const While: Token := 4
  const For: Token := 5
  const Return: Token := 6
  const Struct: Token := 7
  const Enum: Token := 8
  const Match: Token := 9
  const Import: Token := 10
  const True: Token := 11
  const False: Token := 12
  const Null: Token := 13

  // operators
  const Plus: Token := 14
  const Minus: Token := 15
  const Star: Token := 16
  const Slash: Token := 17
  const Percent: Token := 18
  const Assign: Token := 19
  const Equal: Token := 20
  const NotEqual: Token := 21
  const Less: Token := 22
  const LessEqual: Token := 23
  const Greater: Token := 24
  const GreaterEqual: Token := 25
  const And: Token := 26
  const Or: Token := 27
  const Not: Token := 28

  // delimiters
  const LeftParen: Token := 29
  const RightParen: Token := 30
  const LeftBrace: Token := 31
  const RightBrace: Token := 32
  const LeftBracket: Token := 33
  const RightBracket: Token := 34
  const Semicolon: Token := 35
  const Comma: Token := 36
  const Dot: Token := 37
  const Colon: Token := 38
  const Arrow: Token := 39

  // literal classes
  const Identifier: Token := 40
  const IntLiteral: Token := 41
  const FloatLiteral: Token := 42
  const StringLiteral: Token := 43

  // skipped or rejected input
  const Comment: Token := 44
  const MultiLineComment: Token := 45
  const Whitespace: Token := 46
  const Error: Token := 47

  /** A half-open byte range `start..end` of the source text. */
  datatype ByteRange = ByteRange(start: nat, end: nat)

  /** A token kind together with the byte range it was scanned from. */
  datatype LexerSpan = LexerSpan(token: Token, span: ByteRange)
}
